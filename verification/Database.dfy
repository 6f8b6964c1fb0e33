/** The relational state. A table is a map from its primary key to its row. The membership table, whose
    own id nothing reads, is a sequence of rows. */
module Database {
  import opened Options
  import opened Lifecycle

  type ProjectId = nat
  type ScraperId = nat
  type TargetId = nat
  type OrganizationId = nat

  datatype Engine = HTTP | BROWSER | SCRAPY

  /** `resource_type` and `resource_id` of an audit row. */
  datatype Resource =
    | OrganizationResource(organization: OrganizationId)
    | ProjectResource(project: ProjectId)
    | ScraperResource(scraper: ScraperId)
    | TargetResource(target: TargetId)

  datatype AuditEntry = AuditEntry(
    action: Action, user: Option<UserId>, organization: Option<OrganizationId>,
    resource: Resource, ipAddress: Option<string>, engine: Option<Engine>)

  datatype AccountStatus = ActiveAccount | SuspendedAccount

  datatype User = User(isActive: bool, status: AccountStatus)

  datatype OrganizationStatus = ActiveOrganization | SuspendedOrganization

  datatype Organization = Organization(name: string, slug: string, status: OrganizationStatus)

  /** The role column is a plain string: anything but the six known roles has no rank. */
  datatype Role = Viewer | Analyst | Operator | Manager | Admin | Owner | Unrecognised(name: string)

  function RoleRank(role: Role): nat {
    match role
    case Viewer => 1
    case Analyst => 2
    case Operator => 3
    case Manager => 4
    case Admin => 5
    case Owner => 6
    case Unrecognised(_) => 0
  }

  predicate RoleSatisfies(actual: Role, required: Role) {
    RoleRank(actual) >= RoleRank(required)
  }

  /** OWNER > ADMIN > MANAGER > OPERATOR > ANALYST > VIEWER, spelled out: who satisfies which known role.
      An unrecognised role satisfies none of them. */
  lemma RolesOrdered(actual: Role)
    ensures RoleSatisfies(actual, Viewer) <==> actual in {Viewer, Analyst, Operator, Manager, Admin, Owner}
    ensures RoleSatisfies(actual, Analyst) <==> actual in {Analyst, Operator, Manager, Admin, Owner}
    ensures RoleSatisfies(actual, Operator) <==> actual in {Operator, Manager, Admin, Owner}
    ensures RoleSatisfies(actual, Manager) <==> actual in {Manager, Admin, Owner}
    ensures RoleSatisfies(actual, Admin) <==> actual in {Admin, Owner}
    ensures RoleSatisfies(actual, Owner) <==> actual == Owner
  {
  }

  datatype Member = Member(user: UserId, organization: OrganizationId, role: Role)

  /** The role of the first membership row of this user in this organisation. */
  function FindRole(rows: seq<Member>, user: UserId, organization: OrganizationId): Option<Role> {
    if rows == [] then None
    else if rows[0].user == user && rows[0].organization == organization then Some(rows[0].role)
    else FindRole(rows[1..], user, organization)
  }

  /** The unique constraint on the pair of user and organisation. */
  ghost predicate UniqueMembers(rows: seq<Member>) {
    forall i, j | 0 <= i < j < |rows| :: rows[i].user != rows[j].user || rows[i].organization != rows[j].organization
  }

  lemma {:induction false} FindRoleAfter(rows: seq<Member>, added: Member, user: UserId, organization: OrganizationId)
    ensures FindRole(rows + [added], user, organization)
            == if FindRole(rows, user, organization).Some? then FindRole(rows, user, organization)
               else if added.user == user && added.organization == organization then Some(added.role) else None
    decreases |rows|
  {
    if rows == [] {
      assert rows + [added] == [added];
    } else {
      assert (rows + [added])[1..] == rows[1..] + [added];
      FindRoleAfter(rows[1..], added, user, organization);
    }
  }

  lemma {:induction false} RoleIsFound(rows: seq<Member>, i: nat)
    requires i < |rows|
    ensures FindRole(rows, rows[i].user, rows[i].organization).Some?
    decreases |rows|
  {
    if i > 0 {
      RoleIsFound(rows[1..], i - 1);
    }
  }

  lemma {:induction false} NobodyFound(rows: seq<Member>, user: UserId, organization: OrganizationId)
    requires forall row <- rows :: row.user != user || row.organization != organization
    ensures FindRole(rows, user, organization).None?
    decreases |rows|
  {
    if rows != [] {
      NobodyFound(rows[1..], user, organization);
    }
  }

  /** Under the unique constraint the first row is the only one of its pair. */
  lemma FirstRowIsOnly(rows: seq<Member>)
    requires UniqueMembers(rows) && rows != []
    ensures FindRole(rows[1..], rows[0].user, rows[0].organization).None?
  {
    var rest := rows[1..];
    forall row <- rest ensures row.user != rows[0].user || row.organization != rows[0].organization {
      var i :| 0 <= i < |rest| && rest[i] == row;
      assert rows[i + 1] == row;
    }
    NobodyFound(rest, rows[0].user, rows[0].organization);
  }

  /** Under it, the role found is the role of the row that is there. */
  lemma {:induction false} RoleFoundExactly(rows: seq<Member>, user: UserId, organization: OrganizationId, role: Role)
    requires UniqueMembers(rows)
    ensures FindRole(rows, user, organization) == Some(role) <==> Member(user, organization, role) in rows
    decreases |rows|
  {
    if rows != [] {
      var rest := rows[1..];
      RoleFoundExactly(rest, user, organization, role);
      if rows[0].user == user && rows[0].organization == organization {
        FirstRowIsOnly(rows);
      }
      assert forall row :: row in rows <==> row == rows[0] || row in rest;
    }
  }

  lemma UniqueAfter(rows: seq<Member>, added: Member)
    requires UniqueMembers(rows) && FindRole(rows, added.user, added.organization).None?
    ensures UniqueMembers(rows + [added])
  {
    forall i | 0 <= i < |rows|
      ensures rows[i].user != added.user || rows[i].organization != added.organization
    {
      RoleIsFound(rows, i);
    }
  }

  datatype Configuration =
    | HttpConfiguration(
        timeoutSeconds: int, maxRedirects: int, concurrency: int, rateLimitPerMinute: Option<int>,
        userAgent: Option<string>, headers: map<string, string>)
    | BrowserConfiguration(
        timeoutSeconds: int, concurrency: int, userAgent: Option<string>,
        viewportWidth: int, viewportHeight: int, waitUntil: string)
    | ScrapyConfiguration(timeoutSeconds: int, concurrency: int, obeyRobotsTxt: bool)

  function DefaultConfiguration(engine: Engine): Configuration {
    match engine
    case HTTP => HttpConfiguration(30, 5, 1, None, None, map[])
    case BROWSER => BrowserConfiguration(60, 1, None, 1280, 720, "load")
    case SCRAPY => ScrapyConfiguration(30, 1, true)
  }

  datatype Project = Project(
    organization: OrganizationId, name: string, slug: string, description: Option<string>,
    status: ProjectStatus, createdBy: UserId)

  datatype Scraper = Scraper(
    project: ProjectId, name: string, slug: string, engine: Engine, configuration: Configuration,
    credentialReference: Option<string>, status: ScraperStatus, version: int, createdBy: UserId)

  datatype Target = Target(scraper: ScraperId, url: string, name: Option<string>, enabled: bool, priority: int)

  datatype Tables = Tables(
    users: map<UserId, User>,
    organizations: map<OrganizationId, Organization>,
    members: seq<Member>,
    projects: map<ProjectId, Project>,
    scrapers: map<ScraperId, Scraper>,
    targets: map<TargetId, Target>,
    audit: seq<AuditEntry>)
  {
    predicate IsMember(user: UserId, organization: OrganizationId) {
      FindRole(members, user, organization).Some?
    }

    /** Ownership is found by walking target, scraper, project, organisation. */
    function OwnerOfProject(id: ProjectId): Option<OrganizationId> {
      if id in projects then Some(projects[id].organization) else None
    }

    function OwnerOfScraper(id: ScraperId): Option<OrganizationId> {
      if id in scrapers then OwnerOfProject(scrapers[id].project) else None
    }

    function OwnerOfTarget(id: TargetId): Option<OrganizationId> {
      if id in targets then OwnerOfScraper(targets[id].scraper) else None
    }

    predicate BelongsTo(owner: Option<OrganizationId>, user: UserId) {
      owner.Some? && IsMember(user, owner.value)
    }
  }

  const EMPTY_TABLES := Tables(map[], map[], [], map[], map[], map[], [])

  /** What the schema's keys and the services' checks keep. */
  ghost predicate Integrity(db: Tables) {
    ForeignKeys(db) && UniqueMembers(db.members) && UniqueSlugs(db) && forall o <- db.organizations :: HasOwner(db, o)
  }

  ghost predicate ForeignKeys(db: Tables) {
    && (forall user, o :: FindRole(db.members, user, o).Some? ==> user in db.users && o in db.organizations)
    && (forall p <- db.projects :: db.projects[p].organization in db.organizations)
    && (forall s <- db.scrapers :: db.scrapers[s].project in db.projects)
    && (forall t <- db.targets :: db.targets[t].scraper in db.scrapers)
  }

  ghost predicate UniqueSlugs(db: Tables) {
    && (forall o <- db.organizations, o' <- db.organizations ::
          db.organizations[o].slug == db.organizations[o'].slug ==> o == o')
    && (forall p <- db.projects, p' <- db.projects ::
          db.projects[p].organization == db.projects[p'].organization && db.projects[p].slug == db.projects[p'].slug
          ==> p == p')
    && (forall s <- db.scrapers, s' <- db.scrapers ::
          db.scrapers[s].project == db.scrapers[s'].project && db.scrapers[s].slug == db.scrapers[s'].slug
          ==> s == s')
  }

  ghost predicate HasOwner(db: Tables, o: OrganizationId) {
    exists user :: FindRole(db.members, user, o) == Some(Owner)
  }
}
