/** Tenant isolation as noninterference: what a user is answered, and what the user's organisations
    become, depends on nothing outside those organisations. */
module TenantIsolation {
  import opened Options
  import opened Lifecycle
  import opened Database
  import opened Dependencies
  import opened Service
  import opened ServiceRuns

  function SeenOrganization(db: Tables, user: UserId, o: OrganizationId): Option<Organization> {
    if db.IsMember(user, o) && o in db.organizations then Some(db.organizations[o]) else None
  }

  function SeenProject(db: Tables, user: UserId, p: ProjectId): Option<Project> {
    if db.BelongsTo(db.OwnerOfProject(p), user) then Some(db.projects[p]) else None
  }

  function SeenScraper(db: Tables, user: UserId, s: ScraperId): Option<Scraper> {
    if db.BelongsTo(db.OwnerOfScraper(s), user) then Some(db.scrapers[s]) else None
  }

  function SeenTarget(db: Tables, user: UserId, t: TargetId): Option<Target> {
    if db.BelongsTo(db.OwnerOfTarget(t), user) then Some(db.targets[t]) else None
  }

  /** The two states agree on the user's account and memberships and on every row of the user's
      organisations. They may differ in everything else. */
  ghost predicate Agree(user: UserId, d1: Tables, d2: Tables) {
    && (user in d1.users <==> user in d2.users) && (user in d1.users ==> d1.users[user] == d2.users[user])
    && (forall o :: GetMembership(d1, user, o) == GetMembership(d2, user, o))
    && (forall o :: SeenOrganization(d1, user, o) == SeenOrganization(d2, user, o))
    && (forall p :: SeenProject(d1, user, p) == SeenProject(d2, user, p))
    && (forall s :: SeenScraper(d1, user, s) == SeenScraper(d2, user, s))
    && (forall t :: SeenTarget(d1, user, t) == SeenTarget(d2, user, t))
  }

  // ---------- the dependencies ----------

  lemma OwnerChecksAgree(user: UserId, d1: Tables, d2: Tables, o1: Option<OrganizationId>,
                         o2: Option<OrganizationId>, f: Failure)
    requires Agree(user, d1, d2)
    requires d1.BelongsTo(o1, user) <==> d2.BelongsTo(o2, user)
    requires d1.BelongsTo(o1, user) ==> o1 == o2
    ensures RequireOwner(d1, user, o1, f) == RequireOwner(d2, user, o2, f)
  {
    if o1.Some? {
      assert GetMembership(d1, user, o1.value) == GetMembership(d2, user, o1.value);
    }
  }

  lemma ProjectOwnersAgree(user: UserId, d1: Tables, d2: Tables, p: ProjectId)
    requires Agree(user, d1, d2)
    ensures d1.BelongsTo(d1.OwnerOfProject(p), user) <==> d2.BelongsTo(d2.OwnerOfProject(p), user)
    ensures d1.BelongsTo(d1.OwnerOfProject(p), user) ==>
              d1.OwnerOfProject(p) == d2.OwnerOfProject(p) && d1.projects[p] == d2.projects[p]
  {
    assert SeenProject(d1, user, p) == SeenProject(d2, user, p);
  }

  lemma ScraperOwnersAgree(user: UserId, d1: Tables, d2: Tables, s: ScraperId)
    requires Agree(user, d1, d2)
    ensures d1.BelongsTo(d1.OwnerOfScraper(s), user) <==> d2.BelongsTo(d2.OwnerOfScraper(s), user)
    ensures d1.BelongsTo(d1.OwnerOfScraper(s), user) ==>
              d1.OwnerOfScraper(s) == d2.OwnerOfScraper(s) && d1.scrapers[s] == d2.scrapers[s]
  {
    assert SeenScraper(d1, user, s) == SeenScraper(d2, user, s);
    if d1.BelongsTo(d1.OwnerOfScraper(s), user) {
      ProjectOwnersAgree(user, d1, d2, d1.scrapers[s].project);
    }
  }

  lemma TargetOwnersAgree(user: UserId, d1: Tables, d2: Tables, t: TargetId)
    requires Agree(user, d1, d2)
    ensures d1.BelongsTo(d1.OwnerOfTarget(t), user) <==> d2.BelongsTo(d2.OwnerOfTarget(t), user)
    ensures d1.BelongsTo(d1.OwnerOfTarget(t), user) ==>
              d1.OwnerOfTarget(t) == d2.OwnerOfTarget(t) && d1.targets[t] == d2.targets[t]
  {
    assert SeenTarget(d1, user, t) == SeenTarget(d2, user, t);
    if d1.BelongsTo(d1.OwnerOfTarget(t), user) {
      ScraperOwnersAgree(user, d1, d2, d1.targets[t].scraper);
    }
  }

  lemma OwnersAddressedAgree(user: UserId, d1: Tables, d2: Tables, req: Request)
    requires Agree(user, d1, d2) && !req.CreateOrganization? && !req.ListOrganizations?
    ensures var o1, o2 := OwnerAddressed(d1, req), OwnerAddressed(d2, req);
            && (d1.BelongsTo(o1, user) <==> d2.BelongsTo(o2, user))
            && (d1.BelongsTo(o1, user) ==> o1 == o2)
            && forall f :: RequireOwner(d1, user, o1, f) == RequireOwner(d2, user, o2, f)
  {
    var o1, o2 := OwnerAddressed(d1, req), OwnerAddressed(d2, req);
    match req {
      case GetProject(id) => ProjectOwnersAgree(user, d1, d2, id);
      case UpdateProject(id, _) => ProjectOwnersAgree(user, d1, d2, id);
      case ArchiveProject(id) => ProjectOwnersAgree(user, d1, d2, id);
      case ListScrapers(id) => ProjectOwnersAgree(user, d1, d2, id);
      case CreateScraper(id, _, _) => ProjectOwnersAgree(user, d1, d2, id);
      case GetScraper(id) => ScraperOwnersAgree(user, d1, d2, id);
      case UpdateScraper(id, _) => ScraperOwnersAgree(user, d1, d2, id);
      case ArchiveScraper(id) => ScraperOwnersAgree(user, d1, d2, id);
      case ListTargets(id) => ScraperOwnersAgree(user, d1, d2, id);
      case CreateTarget(id, _, _) => ScraperOwnersAgree(user, d1, d2, id);
      case UpdateTarget(id, _) => TargetOwnersAgree(user, d1, d2, id);
      case DeleteTarget(id) => TargetOwnersAgree(user, d1, d2, id);
      case ListProjects(o) => assert GetMembership(d1, user, o) == GetMembership(d2, user, o);
      case CreateProject(o, _, _) => assert GetMembership(d1, user, o) == GetMembership(d2, user, o);
      case _ =>
    }
    forall f ensures RequireOwner(d1, user, o1, f) == RequireOwner(d2, user, o2, f) {
      OwnerChecksAgree(user, d1, d2, o1, o2, f);
    }
  }

  lemma AdmissionAgrees(user: UserId, d1: Tables, d2: Tables, c: Credentials, s: Session, req: Request)
    requires Agree(user, d1, d2) && (s.user.None? || s.user == Some(user))
    ensures Admit(d1, c, s, req) == Admit(d2, c, s, req)
  {
    assert GetCurrentUser(d1, c, s) == GetCurrentUser(d2, c, s);
    if !req.CreateOrganization? && !req.ListOrganizations? {
      OwnersAddressedAgree(user, d1, d2, req);
      if req.ListProjects? || req.CreateProject? {
        assert GetMembership(d1, user, req.organization) == GetMembership(d2, user, req.organization);
      }
    }
  }

  // ---------- writing rows ----------

  /** Writing a project row changes what is seen of that project only. */
  lemma ProjectWriteShows(user: UserId, db: Tables, id: ProjectId, row: Project, log: seq<AuditEntry>,
                          p: ProjectId, s: ScraperId, t: TargetId)
    requires ForeignKeys(db) && (id in db.projects ==> row.organization == db.projects[id].organization)
    ensures var next := db.(projects := db.projects[id := row], audit := log);
            && SeenProject(next, user, p)
               == (if p != id then SeenProject(db, user, p)
                   else if db.IsMember(user, row.organization) then Some(row) else None)
            && SeenScraper(next, user, s) == SeenScraper(db, user, s)
            && SeenTarget(next, user, t) == SeenTarget(db, user, t)
  {
    var next := db.(projects := db.projects[id := row], audit := log);
    assert next.OwnerOfScraper(s) == db.OwnerOfScraper(s);
    assert next.OwnerOfTarget(t) == db.OwnerOfTarget(t) by {
      if t in db.targets {
        var s' := db.targets[t].scraper;
        assert s' in db.scrapers && db.scrapers[s'].project in db.projects;
      }
    }
  }

  /** Writing a scraper row changes what is seen of that scraper only. */
  lemma ScraperWriteShows(user: UserId, db: Tables, id: ScraperId, row: Scraper, log: seq<AuditEntry>,
                          s: ScraperId, t: TargetId)
    requires ForeignKeys(db) && (id in db.scrapers ==> row.project == db.scrapers[id].project)
    ensures var next := db.(scrapers := db.scrapers[id := row], audit := log);
            && SeenScraper(next, user, s)
               == (if s != id then SeenScraper(db, user, s)
                   else if db.BelongsTo(db.OwnerOfProject(row.project), user) then Some(row) else None)
            && SeenTarget(next, user, t) == SeenTarget(db, user, t)
  {
  }

  lemma ProjectWriteAgrees(user: UserId, d1: Tables, d2: Tables, id: ProjectId, row: Project,
                           log1: seq<AuditEntry>, log2: seq<AuditEntry>)
    requires ForeignKeys(d1) && ForeignKeys(d2) && Agree(user, d1, d2)
    requires id in d1.projects ==> row.organization == d1.projects[id].organization
    requires id in d2.projects ==> row.organization == d2.projects[id].organization
    ensures Agree(user, d1.(projects := d1.projects[id := row], audit := log1),
                  d2.(projects := d2.projects[id := row], audit := log2))
  {
    var e1 := d1.(projects := d1.projects[id := row], audit := log1);
    var e2 := d2.(projects := d2.projects[id := row], audit := log2);
    forall o ensures GetMembership(e1, user, o) == GetMembership(e2, user, o) {
      assert GetMembership(d1, user, o) == GetMembership(d2, user, o);
    }
    forall o ensures SeenOrganization(e1, user, o) == SeenOrganization(e2, user, o) {
      assert SeenOrganization(d1, user, o) == SeenOrganization(d2, user, o);
    }
    assert GetMembership(d1, user, row.organization) == GetMembership(d2, user, row.organization);
    forall p ensures SeenProject(e1, user, p) == SeenProject(e2, user, p) {
      assert SeenProject(d1, user, p) == SeenProject(d2, user, p);
      ProjectWriteShows(user, d1, id, row, log1, p, 0, 0);
      ProjectWriteShows(user, d2, id, row, log2, p, 0, 0);
    }
    forall s ensures SeenScraper(e1, user, s) == SeenScraper(e2, user, s) {
      assert SeenScraper(d1, user, s) == SeenScraper(d2, user, s);
      ProjectWriteShows(user, d1, id, row, log1, 0, s, 0);
      ProjectWriteShows(user, d2, id, row, log2, 0, s, 0);
    }
    forall t ensures SeenTarget(e1, user, t) == SeenTarget(e2, user, t) {
      assert SeenTarget(d1, user, t) == SeenTarget(d2, user, t);
      ProjectWriteShows(user, d1, id, row, log1, 0, 0, t);
      ProjectWriteShows(user, d2, id, row, log2, 0, 0, t);
    }
  }

  lemma ScraperWriteAgrees(user: UserId, d1: Tables, d2: Tables, id: ScraperId, row: Scraper,
                           log1: seq<AuditEntry>, log2: seq<AuditEntry>)
    requires ForeignKeys(d1) && ForeignKeys(d2) && Agree(user, d1, d2)
    requires d1.BelongsTo(d1.OwnerOfProject(row.project), user)
    requires id in d1.scrapers ==> row.project == d1.scrapers[id].project
    requires id in d2.scrapers ==> row.project == d2.scrapers[id].project
    ensures Agree(user, d1.(scrapers := d1.scrapers[id := row], audit := log1),
                  d2.(scrapers := d2.scrapers[id := row], audit := log2))
  {
    var e1 := d1.(scrapers := d1.scrapers[id := row], audit := log1);
    var e2 := d2.(scrapers := d2.scrapers[id := row], audit := log2);
    forall o ensures GetMembership(e1, user, o) == GetMembership(e2, user, o) {
      assert GetMembership(d1, user, o) == GetMembership(d2, user, o);
    }
    forall o ensures SeenOrganization(e1, user, o) == SeenOrganization(e2, user, o) {
      assert SeenOrganization(d1, user, o) == SeenOrganization(d2, user, o);
    }
    forall p ensures SeenProject(e1, user, p) == SeenProject(e2, user, p) {
      assert SeenProject(d1, user, p) == SeenProject(d2, user, p);
    }
    ProjectOwnersAgree(user, d1, d2, row.project);
    forall s ensures SeenScraper(e1, user, s) == SeenScraper(e2, user, s) {
      assert SeenScraper(d1, user, s) == SeenScraper(d2, user, s);
      ScraperWriteShows(user, d1, id, row, log1, s, 0);
      ScraperWriteShows(user, d2, id, row, log2, s, 0);
    }
    forall t ensures SeenTarget(e1, user, t) == SeenTarget(e2, user, t) {
      assert SeenTarget(d1, user, t) == SeenTarget(d2, user, t);
      ScraperWriteShows(user, d1, id, row, log1, 0, t);
      ScraperWriteShows(user, d2, id, row, log2, 0, t);
    }
  }

  function WriteTarget(db: Tables, id: TargetId, row: Option<Target>, log: seq<AuditEntry>): Tables {
    db.(targets := if row.Some? then db.targets[id := row.value] else db.targets - {id}, audit := log)
  }

  lemma TargetWriteAgrees(user: UserId, d1: Tables, d2: Tables, id: TargetId, row: Option<Target>,
                          log1: seq<AuditEntry>, log2: seq<AuditEntry>)
    requires Agree(user, d1, d2)
    requires row.Some? ==> d1.BelongsTo(d1.OwnerOfScraper(row.value.scraper), user)
    ensures Agree(user, WriteTarget(d1, id, row, log1), WriteTarget(d2, id, row, log2))
  {
    var e1, e2 := WriteTarget(d1, id, row, log1), WriteTarget(d2, id, row, log2);
    if row.Some? {
      ScraperOwnersAgree(user, d1, d2, row.value.scraper);
    }
    forall o ensures GetMembership(e1, user, o) == GetMembership(e2, user, o) {
      assert GetMembership(d1, user, o) == GetMembership(d2, user, o);
    }
    forall o ensures SeenOrganization(e1, user, o) == SeenOrganization(e2, user, o) {
      assert SeenOrganization(d1, user, o) == SeenOrganization(d2, user, o);
    }
    forall p ensures SeenProject(e1, user, p) == SeenProject(e2, user, p) {
      assert SeenProject(d1, user, p) == SeenProject(d2, user, p);
    }
    forall s ensures SeenScraper(e1, user, s) == SeenScraper(e2, user, s) {
      assert SeenScraper(d1, user, s) == SeenScraper(d2, user, s);
    }
    forall t ensures SeenTarget(e1, user, t) == SeenTarget(e2, user, t) {
      assert SeenTarget(d1, user, t) == SeenTarget(d2, user, t);
    }
  }

  // ---------- one request ----------

  /** The rows a request adds to the audit log. */
  function Logged(db: Tables, next: Tables): seq<AuditEntry> {
    if |db.audit| <= |next.audit| then next.audit[|db.audit|..] else []
  }

  ghost predicate SameEffect(user: UserId, d1: Tables, d2: Tables, r1: (Response, Tables), r2: (Response, Tables)) {
    r1.0 == r2.0 && Agree(user, r1.1, r2.1) && Logged(d1, r1.1) == Logged(d2, r2.1)
  }

  lemma ListingsAgree(user: UserId, d1: Tables, d2: Tables, req: Request)
    requires Agree(user, d1, d2) && UniqueMembers(d1.members) && UniqueMembers(d2.members)
    requires req.ListOrganizations? || d1.BelongsTo(OwnerAddressed(d1, req), user)
    ensures req.ListOrganizations? ==> OrganizationsOf(d1, user) == OrganizationsOf(d2, user)
    ensures req.ListProjects? ==> ProjectsOf(d1, req.organization) == ProjectsOf(d2, req.organization)
    ensures req.ListScrapers? ==> ScrapersOf(d1, req.project) == ScrapersOf(d2, req.project)
    ensures req.ListTargets? ==> TargetsOf(d1, req.scraper) == TargetsOf(d2, req.scraper)
  {
    match req
    case ListOrganizations =>
      forall view ensures OrganizationsOf(d1, user)[view] == OrganizationsOf(d2, user)[view] {
        assert SeenOrganization(d1, user, view.id) == SeenOrganization(d2, user, view.id);
        assert GetMembership(d1, user, view.id) == GetMembership(d2, user, view.id);
        JoinedCounts(d1.organizations, d1.members, user, view);
        JoinedCounts(d2.organizations, d2.members, user, view);
      }
    case ListProjects(o) =>
      assert GetMembership(d1, user, o) == GetMembership(d2, user, o);
      forall view ensures view in ProjectsOf(d1, o) <==> view in ProjectsOf(d2, o) {
        assert SeenProject(d1, user, view.id) == SeenProject(d2, user, view.id);
      }
    case ListScrapers(p) =>
      ProjectOwnersAgree(user, d1, d2, p);
      forall view ensures view in ScrapersOf(d1, p) <==> view in ScrapersOf(d2, p) {
        assert SeenScraper(d1, user, view.id) == SeenScraper(d2, user, view.id);
      }
    case ListTargets(s) =>
      ScraperOwnersAgree(user, d1, d2, s);
      forall view ensures view in TargetsOf(d1, s) <==> view in TargetsOf(d2, s) {
        assert SeenTarget(d1, user, view.id) == SeenTarget(d2, user, view.id);
      }
    case _ =>
  }

  lemma CreateProjectAgrees(user: UserId, d1: Tables, d2: Tables, ip: Option<string>, actor: UserId, o: OrganizationId,
                            body: ProjectCreate, id: ProjectId)
    requires ForeignKeys(d1) && ForeignKeys(d2) && Agree(user, d1, d2) && d1.IsMember(user, o)
    requires id !in d1.projects && id !in d2.projects
    ensures SameEffect(user, d1, d2, DoCreateProject(d1, ip, actor, o, body, id),
                       DoCreateProject(d2, ip, actor, o, body, id))
  {
    assert GetMembership(d1, user, o) == GetMembership(d2, user, o);
    forall p ensures (p in d1.projects && d1.projects[p].organization == o && d1.projects[p].slug == body.slug)
                     <==> (p in d2.projects && d2.projects[p].organization == o && d2.projects[p].slug == body.slug) {
      assert SeenProject(d1, user, p) == SeenProject(d2, user, p);
    }
    var (r1, n1) := DoCreateProject(d1, ip, actor, o, body, id);
    var (r2, n2) := DoCreateProject(d2, ip, actor, o, body, id);
    if !r1.Failed? {
      ProjectWriteAgrees(user, d1, d2, id, n1.projects[id], n1.audit, n2.audit);
    }
  }

  lemma UpdateProjectAgrees(user: UserId, d1: Tables, d2: Tables, ip: Option<string>, id: ProjectId,
                            patch: ProjectUpdate)
    requires ForeignKeys(d1) && ForeignKeys(d2) && Agree(user, d1, d2) && d1.BelongsTo(d1.OwnerOfProject(id), user)
    ensures id in d2.projects
    ensures SameEffect(user, d1, d2, DoUpdateProject(d1, ip, id, patch), DoUpdateProject(d2, ip, id, patch))
  {
    ProjectOwnersAgree(user, d1, d2, id);
    var (r1, n1) := DoUpdateProject(d1, ip, id, patch);
    var (r2, n2) := DoUpdateProject(d2, ip, id, patch);
    if !r1.Failed? {
      ProjectWriteAgrees(user, d1, d2, id, n1.projects[id], n1.audit, n2.audit);
    }
  }

  lemma CreateScraperAgrees(user: UserId, d1: Tables, d2: Tables, ip: Option<string>, actor: UserId, p: ProjectId,
                            body: ScraperCreate, id: ScraperId)
    requires ForeignKeys(d1) && ForeignKeys(d2) && Agree(user, d1, d2) && d1.BelongsTo(d1.OwnerOfProject(p), user)
    requires id !in d1.scrapers && id !in d2.scrapers
    ensures SameEffect(user, d1, d2, DoCreateScraper(d1, ip, actor, p, body, id),
                       DoCreateScraper(d2, ip, actor, p, body, id))
  {
    ProjectOwnersAgree(user, d1, d2, p);
    forall s ensures (s in d1.scrapers && d1.scrapers[s].project == p && d1.scrapers[s].slug == body.slug)
                     <==> (s in d2.scrapers && d2.scrapers[s].project == p && d2.scrapers[s].slug == body.slug) {
      assert SeenScraper(d1, user, s) == SeenScraper(d2, user, s);
    }
    var (r1, n1) := DoCreateScraper(d1, ip, actor, p, body, id);
    var (r2, n2) := DoCreateScraper(d2, ip, actor, p, body, id);
    if !r1.Failed? {
      ScraperWriteAgrees(user, d1, d2, id, n1.scrapers[id], n1.audit, n2.audit);
    }
  }

  lemma UpdateScraperAgrees(user: UserId, d1: Tables, d2: Tables, ip: Option<string>, id: ScraperId,
                            patch: ScraperUpdate)
    requires ForeignKeys(d1) && ForeignKeys(d2) && Agree(user, d1, d2) && d1.BelongsTo(d1.OwnerOfScraper(id), user)
    ensures id in d2.scrapers
    ensures SameEffect(user, d1, d2, DoUpdateScraper(d1, ip, id, patch), DoUpdateScraper(d2, ip, id, patch))
  {
    ScraperOwnersAgree(user, d1, d2, id);
    var (r1, n1) := DoUpdateScraper(d1, ip, id, patch);
    var (r2, n2) := DoUpdateScraper(d2, ip, id, patch);
    if !r1.Failed? {
      ScraperWriteAgrees(user, d1, d2, id, n1.scrapers[id], n1.audit, n2.audit);
    }
  }

  lemma TargetRequestAgrees(user: UserId, d1: Tables, d2: Tables, ip: Option<string>, actor: UserId, req: Request)
    requires Agree(user, d1, d2) && d1.BelongsTo(OwnerAddressed(d1, req), user)
    requires req.CreateTarget? || req.UpdateTarget? || req.DeleteTarget?
    ensures Addressed(d1, req) && Addressed(d2, req)
    ensures SameEffect(user, d1, d2, Perform(d1, ip, actor, req), Perform(d2, ip, actor, req))
  {
    OwnersAddressedAgree(user, d1, d2, req);
    if !req.CreateTarget? {
      TargetOwnersAgree(user, d1, d2, req.target);
    }
    var (r1, n1) := Perform(d1, ip, actor, req);
    var (r2, n2) := Perform(d2, ip, actor, req);
    if !r1.Failed? {
      match req
      case CreateTarget(_, _, id) => TargetWriteAgrees(user, d1, d2, id, Some(n1.targets[id]), n1.audit, n2.audit);
      case UpdateTarget(id, _) => TargetWriteAgrees(user, d1, d2, id, Some(n1.targets[id]), n1.audit, n2.audit);
      case DeleteTarget(id) => TargetWriteAgrees(user, d1, d2, id, None, n1.audit, n2.audit);
    }
  }

  lemma ReadAgrees(user: UserId, d1: Tables, d2: Tables, ip: Option<string>, req: Request)
    requires Agree(user, d1, d2) && ReadsOnly(req) && UniqueMembers(d1.members) && UniqueMembers(d2.members)
    requires req.ListOrganizations? || d1.BelongsTo(OwnerAddressed(d1, req), user)
    requires Addressed(d1, req) && Addressed(d2, req)
    ensures Perform(d1, ip, user, req).0 == Perform(d2, ip, user, req).0
  {
    match req
    case GetProject(id) => ProjectOwnersAgree(user, d1, d2, id);
    case GetScraper(id) => ScraperOwnersAgree(user, d1, d2, id);
    case _ => ListingsAgree(user, d1, d2, req);
  }

  /** What `user` sees of a write does not depend on who makes it. */
  lemma WriteAgrees(user: UserId, d1: Tables, d2: Tables, ip: Option<string>, actor: UserId, req: Request)
    requires ForeignKeys(d1) && ForeignKeys(d2) && Agree(user, d1, d2)
    requires FreshId(d1, req) && FreshId(d2, req) && !req.CreateOrganization? && !ReadsOnly(req)
    requires d1.BelongsTo(OwnerAddressed(d1, req), user)
    requires Addressed(d1, req) && Addressed(d2, req)
    ensures SameEffect(user, d1, d2, Perform(d1, ip, actor, req), Perform(d2, ip, actor, req))
  {
    match req
    case CreateProject(o, body, id) => CreateProjectAgrees(user, d1, d2, ip, actor, o, body, id);
    case UpdateProject(id, patch) => UpdateProjectAgrees(user, d1, d2, ip, id, patch);
    case ArchiveProject(id) =>
      UpdateProjectAgrees(user, d1, d2, ip, id, ProjectUpdate(None, None, Some(ProjectStatus.Archived)));
    case CreateScraper(p, body, id) => CreateScraperAgrees(user, d1, d2, ip, actor, p, body, id);
    case UpdateScraper(id, patch) => UpdateScraperAgrees(user, d1, d2, ip, id, patch);
    case ArchiveScraper(id) =>
      UpdateScraperAgrees(user, d1, d2, ip, id, ScraperUpdate(None, None, None, Some(ScraperStatus.Archived)));
    case _ => TargetRequestAgrees(user, d1, d2, ip, actor, req);
  }

  lemma PerformAgrees(user: UserId, d1: Tables, d2: Tables, ip: Option<string>, req: Request)
    requires ForeignKeys(d1) && ForeignKeys(d2) && Agree(user, d1, d2)
    requires UniqueMembers(d1.members) && UniqueMembers(d2.members)
    requires FreshId(d1, req) && FreshId(d2, req) && !req.CreateOrganization?
    requires req.ListOrganizations? || d1.BelongsTo(OwnerAddressed(d1, req), user)
    requires Addressed(d1, req) && Addressed(d2, req)
    ensures SameEffect(user, d1, d2, Perform(d1, ip, user, req), Perform(d2, ip, user, req))
  {
    if ReadsOnly(req) {
      ReadAgrees(user, d1, d2, ip, req);
      assert Perform(d1, ip, user, req).1 == d1 && Perform(d2, ip, user, req).1 == d2;
    } else {
      WriteAgrees(user, d1, d2, ip, user, req);
    }
  }

  /** What the creator of an organisation sees afterwards: the new organisation, and otherwise what was
      seen before. */
  lemma CreateOrganizationShows(user: UserId, db: Tables, ip: Option<string>, name: string, slug: string,
                                id: OrganizationId, o: OrganizationId)
    requires ForeignKeys(db) && id !in db.organizations && !SlugInUse(db, slug)
    ensures var next := DoCreateOrganization(db, ip, user, name, slug, id).1;
            && GetMembership(next, user, o) == (if o == id then Some(Owner) else GetMembership(db, user, o))
            && SeenOrganization(next, user, o)
               == if o == id then Some(Organization(name, slug, ActiveOrganization)) else SeenOrganization(db, user, o)
  {
    assert FindRole(db.members, user, id).None?;
    FindRoleAfter(db.members, Member(user, id, Owner), user, o);
  }

  lemma CreateOrganizationHidesRows(user: UserId, db: Tables, ip: Option<string>, name: string, slug: string,
                                    id: OrganizationId, p: ProjectId, s: ScraperId, t: TargetId)
    requires ForeignKeys(db) && id !in db.organizations && !SlugInUse(db, slug)
    ensures var next := DoCreateOrganization(db, ip, user, name, slug, id).1;
            && SeenProject(next, user, p) == SeenProject(db, user, p)
            && SeenScraper(next, user, s) == SeenScraper(db, user, s)
            && SeenTarget(next, user, t) == SeenTarget(db, user, t)
  {
    var next := DoCreateOrganization(db, ip, user, name, slug, id).1;
    assert next.OwnerOfScraper(s) == db.OwnerOfScraper(s) && next.OwnerOfTarget(t) == db.OwnerOfTarget(t);
    forall owner: OrganizationId | owner != id ensures next.IsMember(user, owner) == db.IsMember(user, owner) {
      FindRoleAfter(db.members, Member(user, id, Owner), user, owner);
    }
  }

  lemma CreateOrganizationAgrees(user: UserId, d1: Tables, d2: Tables, ip: Option<string>, name: string, slug: string,
                                 id: OrganizationId)
    requires ForeignKeys(d1) && ForeignKeys(d2) && Agree(user, d1, d2)
    requires id !in d1.organizations && id !in d2.organizations && !SlugInUse(d1, slug) && !SlugInUse(d2, slug)
    ensures Agree(user, DoCreateOrganization(d1, ip, user, name, slug, id).1,
                  DoCreateOrganization(d2, ip, user, name, slug, id).1)
  {
    var e1 := DoCreateOrganization(d1, ip, user, name, slug, id).1;
    var e2 := DoCreateOrganization(d2, ip, user, name, slug, id).1;
    forall o ensures GetMembership(e1, user, o) == GetMembership(e2, user, o)
             ensures SeenOrganization(e1, user, o) == SeenOrganization(e2, user, o) {
      assert GetMembership(d1, user, o) == GetMembership(d2, user, o);
      assert SeenOrganization(d1, user, o) == SeenOrganization(d2, user, o);
      CreateOrganizationShows(user, d1, ip, name, slug, id, o);
      CreateOrganizationShows(user, d2, ip, name, slug, id, o);
    }
    forall p ensures SeenProject(e1, user, p) == SeenProject(e2, user, p) {
      assert SeenProject(d1, user, p) == SeenProject(d2, user, p);
      CreateOrganizationHidesRows(user, d1, ip, name, slug, id, p, 0, 0);
      CreateOrganizationHidesRows(user, d2, ip, name, slug, id, p, 0, 0);
    }
    forall s ensures SeenScraper(e1, user, s) == SeenScraper(e2, user, s) {
      assert SeenScraper(d1, user, s) == SeenScraper(d2, user, s);
      CreateOrganizationHidesRows(user, d1, ip, name, slug, id, 0, s, 0);
      CreateOrganizationHidesRows(user, d2, ip, name, slug, id, 0, s, 0);
    }
    forall t ensures SeenTarget(e1, user, t) == SeenTarget(e2, user, t) {
      assert SeenTarget(d1, user, t) == SeenTarget(d2, user, t);
      CreateOrganizationHidesRows(user, d1, ip, name, slug, id, 0, 0, t);
      CreateOrganizationHidesRows(user, d2, ip, name, slug, id, 0, 0, t);
    }
  }

  /** The slug an admitted request would give a new organisation is taken in both states or in neither. */
  predicate SlugAgrees(d1: Tables, d2: Tables, c: Credentials, s: Session, req: Request) {
    req.CreateOrganization? && Admit(d1, c, s, req).Ok? ==> (SlugInUse(d1, req.slug) <==> SlugInUse(d2, req.slug))
  }

  lemma OrganizationsDiffer(user: UserId, d1: Tables, d2: Tables, c: Credentials, s: Session, req: Request)
    requires ForeignKeys(d1) && ForeignKeys(d2) && Agree(user, d1, d2) && s.user == Some(user)
    requires FreshId(d1, req) && FreshId(d2, req) && req.CreateOrganization?
    requires Admit(d1, c, s, req).Ok? && Admit(d2, c, s, req).Ok?
    ensures SameEffect(user, d1, d2, Handle(d1, c, s, req), Handle(d2, c, s, req))
            <==> (SlugInUse(d1, req.slug) <==> SlugInUse(d2, req.slug))
  {
    if !SlugInUse(d1, req.slug) && !SlugInUse(d2, req.slug) {
      CreateOrganizationAgrees(user, d1, d2, c.ipAddress, req.name, req.slug, req.newOrganization);
    }
  }

  /** Noninterference. In two states that agree on the caller and on everything in the caller's
      organisations, a request gets the same response, writes the same audit row and leaves the states
      agreeing; so "absent" and "another tenant's" cannot be told apart. The one exception is exact: the
      slug of an organisation to be created is unique among all tenants. */
  lemma Noninterference(user: UserId, d1: Tables, d2: Tables, c: Credentials, s: Session, req: Request)
    requires ForeignKeys(d1) && ForeignKeys(d2) && Agree(user, d1, d2)
    requires UniqueMembers(d1.members) && UniqueMembers(d2.members)
    requires s.user.None? || s.user == Some(user)
    requires FreshId(d1, req) && FreshId(d2, req)
    ensures SameEffect(user, d1, d2, Handle(d1, c, s, req), Handle(d2, c, s, req)) <==> SlugAgrees(d1, d2, c, s, req)
  {
    AdmissionAgrees(user, d1, d2, c, s, req);
    if Admit(d1, c, s, req).Ok? {
      AdmittedOwns(d1, c, s, req);
      if req.CreateOrganization? {
        OrganizationsDiffer(user, d1, d2, c, s, req);
      } else {
        PerformAgrees(user, d1, d2, c.ipAddress, req);
      }
    }
  }

  /** The exception is real: two states that agree for a user of no organisation, told apart by the slug
      that somebody else's organisation has in one of them. */
  lemma SlugsInterfere(user: UserId, other: UserId, slug: string, c: Credentials)
    requires user != other && c.cookie.None? && PresentedToken(c) != BLANK
    ensures var account := User(true, ActiveAccount);
            var d1 := EMPTY_TABLES.(users := map[user := account, other := account]);
            var d2 := DoCreateOrganization(d1, None, other, "", slug, 1).1;
            var s, req := Session(Some(user), None), CreateOrganization("", slug, 2);
            && Integrity(d1) && Integrity(d2) && Agree(user, d1, d2) && FreshId(d1, req) && FreshId(d2, req)
            && Handle(d1, c, s, req).0 != Handle(d2, c, s, req).0
  {
    var account := User(true, ActiveAccount);
    var d1 := EMPTY_TABLES.(users := map[user := account, other := account]);
    CreateOrganizationIntegrity(d1, None, other, "", slug, 1);
    var d2 := DoCreateOrganization(d1, None, other, "", slug, 1).1;
    assert SlugInUse(d2, slug) by {
      assert d2.organizations[1].slug == slug;
    }
    forall o ensures FindRole(d2.members, user, o).None? {
      FindRoleAfter(d1.members, Member(other, 1, Owner), user, o);
    }
  }
}
