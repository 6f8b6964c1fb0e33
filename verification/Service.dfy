/** Every project, scraper and target request as one step on the committed tables: the dependencies in
    their order, then the effect stated in one stroke. */
module Service {
  import opened Options
  import opened Lifecycle
  import opened Database
  import opened Dependencies

  /** A URL from a request body with the verdict of `validate_target_url`, which also asks the resolver. */
  datatype SubmittedUrl = SubmittedUrl(text: string, safe: bool)

  datatype ProjectCreate = ProjectCreate(name: string, slug: string, description: Option<string>)

  datatype ProjectUpdate = ProjectUpdate(
    name: Option<string>, description: Option<string>, status: Option<ProjectStatus>)

  datatype ScraperCreate = ScraperCreate(
    name: string, slug: string, engine: Engine, configuration: Option<Configuration>,
    credentialReference: Option<string>)

  datatype ScraperUpdate = ScraperUpdate(
    name: Option<string>, configuration: Option<Configuration>, credentialReference: Option<string>,
    status: Option<ScraperStatus>)

  datatype TargetCreate = TargetCreate(url: SubmittedUrl, name: Option<string>, enabled: bool, priority: int)

  datatype TargetUpdate = TargetUpdate(
    url: Option<SubmittedUrl>, name: Option<string>, enabled: Option<bool>, priority: Option<int>)

  /** A create request carries the fresh UUID its row will get. */
  datatype Request =
    | ListOrganizations
    | CreateOrganization(name: string, slug: string, newOrganization: OrganizationId)
    | ListProjects(organization: OrganizationId)
    | CreateProject(organization: OrganizationId, newProjectBody: ProjectCreate, newProject: ProjectId)
    | GetProject(project: ProjectId)
    | UpdateProject(project: ProjectId, projectPatch: ProjectUpdate)
    | ArchiveProject(project: ProjectId)
    | ListScrapers(project: ProjectId)
    | CreateScraper(project: ProjectId, newScraperBody: ScraperCreate, newScraper: ScraperId)
    | GetScraper(scraper: ScraperId)
    | UpdateScraper(scraper: ScraperId, scraperPatch: ScraperUpdate)
    | ArchiveScraper(scraper: ScraperId)
    | ListTargets(scraper: ScraperId)
    | CreateTarget(scraper: ScraperId, newTargetBody: TargetCreate, newTarget: TargetId)
    | UpdateTarget(target: TargetId, targetPatch: TargetUpdate)
    | DeleteTarget(target: TargetId)

  /** Row bodies as responses show them: everything but `created_by`. */
  datatype ProjectView = ProjectView(
    id: ProjectId, organization: OrganizationId, name: string, slug: string, description: Option<string>,
    status: ProjectStatus)

  datatype ScraperView = ScraperView(
    id: ScraperId, project: ProjectId, name: string, slug: string, engine: Engine, configuration: Configuration,
    credentialReference: Option<string>, status: ScraperStatus, version: int)

  datatype TargetView = TargetView(id: TargetId, row: Target)

  datatype OrganizationView = OrganizationView(
    id: OrganizationId, name: string, slug: string, status: OrganizationStatus, role: Role)

  datatype Response =
    | Failed(failure: Failure)
    | OneOrganization(organization: OrganizationView)
    | OneProject(project: ProjectView)
    | OneScraper(scraper: ScraperView)
    | OneTarget(target: TargetView)
    | Organizations(organizations: multiset<OrganizationView>)
    | Projects(projects: set<ProjectView>)
    | Scrapers(scrapers: set<ScraperView>)
    | Targets(targets: set<TargetView>)
    | NoContent

  function ShowProject(id: ProjectId, row: Project): ProjectView {
    ProjectView(id, row.organization, row.name, row.slug, row.description, row.status)
  }

  function ShowScraper(id: ScraperId, row: Scraper): ScraperView {
    ScraperView(id, row.project, row.name, row.slug, row.engine, row.configuration, row.credentialReference,
                row.status, row.version)
  }

  /** The dependencies of each route, in the order they are resolved. */
  function Admit(db: Tables, c: Credentials, s: Session, req: Request): (r: Outcome<UserId>)
    ensures r.Ok? ==> Some(r.value) == s.user && Addressed(db, req)
  {
    match req
    case ListOrganizations => GetCurrentUser(db, c, s)
    case CreateOrganization(_, _, _) =>
      var _ :- RequireCsrf(c, s);
      GetCurrentUser(db, c, s)
    case ListProjects(organization) =>
      var user :- GetCurrentUser(db, c, s);
      var _ :- RequireMembership(db, user, organization);
      Ok(user)
    case CreateProject(organization, _, _) =>
      var _ :- RequireCsrf(c, s);
      var user :- GetCurrentUser(db, c, s);
      var role :- RequireMembership(db, user, organization);
      var _ :- Need(RoleSatisfies(role, Manager), InsufficientRole);
      Ok(user)
    case GetProject(id) =>
      var user :- GetCurrentUser(db, c, s);
      var _ :- RequireProjectRole(db, user, id, Viewer);
      Ok(user)
    case UpdateProject(id, _) =>
      var user :- GetCurrentUser(db, c, s);
      var _ :- RequireProjectRole(db, user, id, Manager);
      var _ :- RequireCsrf(c, s);
      Ok(user)
    case ArchiveProject(id) =>
      var user :- GetCurrentUser(db, c, s);
      var _ :- RequireProjectRole(db, user, id, Admin);
      var _ :- RequireCsrf(c, s);
      Ok(user)
    case ListScrapers(id) =>
      var user :- GetCurrentUser(db, c, s);
      var _ :- RequireProjectRole(db, user, id, Viewer);
      Ok(user)
    case CreateScraper(id, _, _) =>
      var _ :- RequireCsrf(c, s);
      var user :- GetCurrentUser(db, c, s);
      var _ :- RequireProjectRole(db, user, id, Manager);
      Ok(user)
    case GetScraper(id) =>
      var user :- GetCurrentUser(db, c, s);
      var _ :- RequireScraperRole(db, user, id, Viewer);
      Ok(user)
    case UpdateScraper(id, _) =>
      var user :- GetCurrentUser(db, c, s);
      var _ :- RequireScraperRole(db, user, id, Manager);
      var _ :- RequireCsrf(c, s);
      Ok(user)
    case ArchiveScraper(id) =>
      var user :- GetCurrentUser(db, c, s);
      var _ :- RequireScraperRole(db, user, id, Admin);
      var _ :- RequireCsrf(c, s);
      Ok(user)
    case ListTargets(id) =>
      var user :- GetCurrentUser(db, c, s);
      var _ :- RequireScraperRole(db, user, id, Viewer);
      Ok(user)
    case CreateTarget(id, _, _) =>
      var _ :- RequireCsrf(c, s);
      var user :- GetCurrentUser(db, c, s);
      var _ :- RequireScraperRole(db, user, id, Manager);
      Ok(user)
    case UpdateTarget(id, _) =>
      var user :- GetCurrentUser(db, c, s);
      var _ :- RequireTargetRole(db, user, id, Manager);
      var _ :- RequireCsrf(c, s);
      Ok(user)
    case DeleteTarget(id) =>
      var user :- GetCurrentUser(db, c, s);
      var _ :- RequireTargetRole(db, user, id, Manager);
      var _ :- RequireCsrf(c, s);
      Ok(user)
  }

  /** The row a request's path names is there. */
  predicate Addressed(db: Tables, req: Request) {
    match req
    case GetProject(id) => id in db.projects
    case UpdateProject(id, _) => id in db.projects
    case ArchiveProject(id) => id in db.projects
    case ListScrapers(id) => id in db.projects
    case CreateScraper(id, _, _) => id in db.projects
    case GetScraper(id) => id in db.scrapers
    case UpdateScraper(id, _) => id in db.scrapers
    case ArchiveScraper(id) => id in db.scrapers
    case ListTargets(id) => id in db.scrapers
    case CreateTarget(id, _, _) => id in db.scrapers
    case UpdateTarget(id, _) => id in db.targets
    case DeleteTarget(id) => id in db.targets
    case _ => true
  }

  function Log(db: Tables, action: Action, user: Option<UserId>, organization: Option<OrganizationId>,
               resource: Resource, ip: Option<string>, engine: Option<Engine>): Tables
  {
    db.(audit := db.audit + [AuditEntry(action, user, organization, resource, ip, engine)])
  }

  function Or<T>(given: Option<T>, current: T): T {
    if given.Some? then given.value else current
  }

  // ---------- organisations ----------

  function ShowOrganization(id: OrganizationId, row: Organization, role: Role): OrganizationView {
    OrganizationView(id, row.name, row.slug, row.status, role)
  }

  /** The join of membership rows and organisations for one user: one result row for each match. */
  function Joined(organizations: map<OrganizationId, Organization>, rows: seq<Member>, user: UserId)
    : multiset<OrganizationView>
  {
    if rows == [] then multiset{}
    else
      (if rows[0].user == user && rows[0].organization in organizations
       then multiset{ShowOrganization(rows[0].organization, organizations[rows[0].organization], rows[0].role)}
       else multiset{})
      + Joined(organizations, rows[1..], user)
  }

  function OrganizationsOf(db: Tables, user: UserId): multiset<OrganizationView> {
    Joined(db.organizations, db.members, user)
  }

  /** Slugs of organisations are unique among all tenants. */
  predicate SlugInUse(db: Tables, slug: string) {
    exists o :: o in db.organizations && db.organizations[o].slug == slug
  }

  function DoCreateOrganization(db: Tables, ip: Option<string>, user: UserId, name: string, slug: string,
                                id: OrganizationId): (Response, Tables)
  {
    if SlugInUse(db, slug) then (Failed(SlugTaken), db)
    else
      var row := Organization(name, slug, ActiveOrganization);
      var db := db.(organizations := db.organizations[id := row], members := db.members + [Member(user, id, Owner)]);
      (OneOrganization(ShowOrganization(id, row, Owner)),
       Log(db, OrganizationCreated, Some(user), Some(id), OrganizationResource(id), ip, None))
  }

  // ---------- projects ----------

  function ProjectsOf(db: Tables, organization: OrganizationId): set<ProjectView> {
    set p | p in db.projects && db.projects[p].organization == organization :: ShowProject(p, db.projects[p])
  }

  function DoCreateProject(db: Tables, ip: Option<string>, user: UserId, organization: OrganizationId,
                           body: ProjectCreate, id: ProjectId): (Response, Tables)
  {
    if exists p :: p in db.projects && db.projects[p].organization == organization && db.projects[p].slug == body.slug
    then (Failed(SlugTaken), db)
    else
      var row := Project(organization, body.name, body.slug, body.description, ProjectStatus.Draft, user);
      (OneProject(ShowProject(id, row)),
       Log(db.(projects := db.projects[id := row]), ProjectCreated, Some(user), Some(organization),
           ProjectResource(id), ip, None))
  }

  /** The row a PATCH leaves. The description can be replaced but not cleared. */
  function PatchProject(row: Project, patch: ProjectUpdate): Project {
    row.(name := Or(patch.name, row.name),
         description := if patch.description.Some? then patch.description else row.description,
         status := Or(patch.status, row.status))
  }

  function DoUpdateProject(db: Tables, ip: Option<string>, id: ProjectId, patch: ProjectUpdate): (Response, Tables)
    requires id in db.projects
  {
    var row := db.projects[id];
    if patch.status.Some? && patch.status.value !in ProjectTransitions(row.status)
    then (Failed(InvalidProjectTransition(row.status, patch.status.value)), db)
    else
      var action := if patch.status.Some? then ProjectEventFor(patch.status.value) else ProjectUpdated;
      (OneProject(ShowProject(id, PatchProject(row, patch))),
       Log(db.(projects := db.projects[id := PatchProject(row, patch)]), action, None, Some(row.organization),
           ProjectResource(id), ip, None))
  }

  // ---------- scrapers ----------

  function ScrapersOf(db: Tables, project: ProjectId): set<ScraperView> {
    set s | s in db.scrapers && db.scrapers[s].project == project :: ShowScraper(s, db.scrapers[s])
  }

  function DoCreateScraper(db: Tables, ip: Option<string>, user: UserId, project: ProjectId,
                           body: ScraperCreate, id: ScraperId): (Response, Tables)
  {
    if exists s :: s in db.scrapers && db.scrapers[s].project == project && db.scrapers[s].slug == body.slug
    then (Failed(SlugTaken), db)
    else
      var row := Scraper(project, body.name, body.slug, body.engine,
                         Or(body.configuration, DefaultConfiguration(body.engine)),
                         body.credentialReference, ScraperStatus.Draft, 1, user);
      (OneScraper(ShowScraper(id, row)),
       Log(db.(scrapers := db.scrapers[id := row]), ScraperCreated, None, db.OwnerOfProject(project),
           ScraperResource(id), ip, Some(body.engine)))
  }

  /** The row a PATCH leaves: any configuration given, even an equal one, makes a new version. */
  function PatchScraper(row: Scraper, patch: ScraperUpdate): Scraper {
    row.(name := Or(patch.name, row.name),
         credentialReference :=
           if patch.credentialReference.Some? then patch.credentialReference else row.credentialReference,
         configuration := Or(patch.configuration, row.configuration),
         version := row.version + if patch.configuration.Some? then 1 else 0,
         status := Or(patch.status, row.status))
  }

  function ScraperPatchEvent(patch: ScraperUpdate): Action {
    if patch.status.Some? then ScraperEventFor(patch.status.value)
    else if patch.configuration.Some? then ScraperConfigurationChanged
    else ScraperUpdated
  }

  function DoUpdateScraper(db: Tables, ip: Option<string>, id: ScraperId, patch: ScraperUpdate): (Response, Tables)
    requires id in db.scrapers
  {
    var row := db.scrapers[id];
    if patch.status.Some? && patch.status.value !in ScraperTransitions(row.status)
    then (Failed(InvalidScraperTransition(row.status, patch.status.value)), db)
    else
      (OneScraper(ShowScraper(id, PatchScraper(row, patch))),
       Log(db.(scrapers := db.scrapers[id := PatchScraper(row, patch)]), ScraperPatchEvent(patch), None, None,
           ScraperResource(id), ip, None))
  }

  // ---------- targets ----------

  function TargetsOf(db: Tables, scraper: ScraperId): set<TargetView> {
    set t | t in db.targets && db.targets[t].scraper == scraper :: TargetView(t, db.targets[t])
  }

  function DoCreateTarget(db: Tables, ip: Option<string>, scraper: ScraperId, body: TargetCreate,
                          id: TargetId): (Response, Tables)
  {
    if !body.url.safe then (Failed(UnsafeUrl), db)
    else
      var row := Target(scraper, body.url.text, body.name, body.enabled, body.priority);
      (OneTarget(TargetView(id, row)),
       Log(db.(targets := db.targets[id := row]), TargetCreated, None, None, TargetResource(id), ip, None))
  }

  function PatchTarget(row: Target, patch: TargetUpdate): Target {
    row.(url := if patch.url.Some? then patch.url.value.text else row.url,
         name := if patch.name.Some? then patch.name else row.name,
         enabled := Or(patch.enabled, row.enabled),
         priority := Or(patch.priority, row.priority))
  }

  function DoUpdateTarget(db: Tables, ip: Option<string>, id: TargetId, patch: TargetUpdate): (Response, Tables)
    requires id in db.targets
  {
    if patch.url.Some? && !patch.url.value.safe then (Failed(UnsafeUrl), db)
    else
      var row := PatchTarget(db.targets[id], patch);
      (OneTarget(TargetView(id, row)),
       Log(db.(targets := db.targets[id := row]), TargetUpdated, None, None, TargetResource(id), ip, None))
  }

  function DoDeleteTarget(db: Tables, ip: Option<string>, id: TargetId): (Response, Tables) {
    (NoContent, Log(db.(targets := db.targets - {id}), TargetDeleted, None, None, TargetResource(id), ip, None))
  }

  // ---------- one request ----------

  /** Archiving is the status-only PATCH to ARCHIVED: same row, same event, same refusal. */
  function Perform(db: Tables, ip: Option<string>, user: UserId, req: Request): (Response, Tables)
    requires Addressed(db, req)
  {
    match req
    case ListOrganizations => (Organizations(OrganizationsOf(db, user)), db)
    case CreateOrganization(name, slug, id) => DoCreateOrganization(db, ip, user, name, slug, id)
    case ListProjects(organization) => (Projects(ProjectsOf(db, organization)), db)
    case CreateProject(organization, body, id) => DoCreateProject(db, ip, user, organization, body, id)
    case GetProject(id) => (OneProject(ShowProject(id, db.projects[id])), db)
    case UpdateProject(id, patch) => DoUpdateProject(db, ip, id, patch)
    case ArchiveProject(id) => DoUpdateProject(db, ip, id, ProjectUpdate(None, None, Some(ProjectStatus.Archived)))
    case ListScrapers(project) => (Scrapers(ScrapersOf(db, project)), db)
    case CreateScraper(project, body, id) => DoCreateScraper(db, ip, user, project, body, id)
    case GetScraper(id) => (OneScraper(ShowScraper(id, db.scrapers[id])), db)
    case UpdateScraper(id, patch) => DoUpdateScraper(db, ip, id, patch)
    case ArchiveScraper(id) =>
      DoUpdateScraper(db, ip, id, ScraperUpdate(None, None, None, Some(ScraperStatus.Archived)))
    case ListTargets(scraper) => (Targets(TargetsOf(db, scraper)), db)
    case CreateTarget(scraper, body, id) => DoCreateTarget(db, ip, scraper, body, id)
    case UpdateTarget(id, patch) => DoUpdateTarget(db, ip, id, patch)
    case DeleteTarget(id) => DoDeleteTarget(db, ip, id)
  }

  /** A request as one step: its response and the tables committed after it. */
  function Handle(db: Tables, c: Credentials, s: Session, req: Request): (Response, Tables) {
    match Admit(db, c, s, req)
    case Fail(failure) => (Failed(failure), db)
    case Ok(user) => Perform(db, c.ipAddress, user, req)
  }

  /** The UUID a create request would use names no row yet. */
  predicate FreshId(db: Tables, req: Request) {
    match req
    case CreateOrganization(_, _, id) => id !in db.organizations
    case CreateProject(_, _, id) => id !in db.projects
    case CreateScraper(_, _, id) => id !in db.scrapers
    case CreateTarget(_, _, id) => id !in db.targets
    case _ => true
  }
}
