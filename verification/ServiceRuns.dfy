/** Serial runs of requests, and the relational invariants every request keeps. */
module ServiceRuns {
  import opened Options
  import opened Lifecycle
  import opened Database
  import opened Dependencies
  import opened Service

  /** A request, or a change no modelled route makes: an account row written, a member added. */
  datatype Step =
    | Call(c: Credentials, s: Session, req: Request)
    | PutUser(id: UserId, account: User)
    | Enrol(row: Member)

  predicate Allowed(db: Tables, step: Step) {
    match step
    case Call(_, _, req) => FreshId(db, req)
    case PutUser(_, _) => true
    case Enrol(row) =>
      !db.IsMember(row.user, row.organization) && row.user in db.users && row.organization in db.organizations
  }

  function Apply(db: Tables, step: Step): Tables {
    match step
    case Call(c, s, req) => Handle(db, c, s, req).1
    case PutUser(id, account) => db.(users := db.users[id := account])
    case Enrol(row) => db.(members := db.members + [row])
  }

  predicate AllowedRun(db: Tables, steps: seq<Step>)
    decreases |steps|
  {
    steps != [] ==> Allowed(db, steps[0]) && AllowedRun(Apply(db, steps[0]), steps[1..])
  }

  function ApplyAll(db: Tables, steps: seq<Step>): Tables
    decreases |steps|
  {
    if steps == [] then db else ApplyAll(Apply(db, steps[0]), steps[1..])
  }

  lemma {:induction false} RunSplits(db: Tables, before: seq<Step>, after: seq<Step>)
    requires AllowedRun(db, before + after)
    ensures AllowedRun(db, before) && AllowedRun(ApplyAll(db, before), after)
    ensures ApplyAll(db, before + after) == ApplyAll(ApplyAll(db, before), after)
    decreases |before|
  {
    if before == [] {
      assert before + after == after;
    } else {
      assert (before + after)[0] == before[0] && (before + after)[1..] == before[1..] + after;
      RunSplits(Apply(db, before[0]), before[1..], after);
    }
  }

  // ---------- all or nothing ----------

  /** A failed request leaves every row and the log as they were; a successful one that changes anything
      commits with exactly one new audit row; one that adds no audit row changes nothing. */
  lemma AllOrNothing(db: Tables, c: Credentials, s: Session, req: Request)
    ensures var (response, next) := Handle(db, c, s, req);
            && (response.Failed? ==> next == db)
            && (next == db || (|next.audit| == |db.audit| + 1 && next.audit[..|db.audit|] == db.audit))
            && (next == db ==> response.Failed? || ReadsOnly(req))
            && (ReadsOnly(req) ==> next == db)
  {
    var (response, next) := Handle(db, c, s, req);
    if next != db {
      assert next.audit[..|db.audit|] == db.audit;
    }
    if Admit(db, c, s, req).Ok? && !response.Failed? && !ReadsOnly(req) {
      assert |next.audit| == |db.audit| + 1;
    }
  }

  /** The row a changing request is about. */
  function Subject(req: Request): Option<Resource> {
    match req
    case CreateOrganization(_, _, id) => Some(OrganizationResource(id))
    case CreateProject(_, _, id) => Some(ProjectResource(id))
    case UpdateProject(id, _) => Some(ProjectResource(id))
    case ArchiveProject(id) => Some(ProjectResource(id))
    case CreateScraper(_, _, id) => Some(ScraperResource(id))
    case UpdateScraper(id, _) => Some(ScraperResource(id))
    case ArchiveScraper(id) => Some(ScraperResource(id))
    case CreateTarget(_, _, id) => Some(TargetResource(id))
    case UpdateTarget(id, _) => Some(TargetResource(id))
    case DeleteTarget(id) => Some(TargetResource(id))
    case _ => None
  }

  lemma OnlyProjectSubjectChanges(db: Tables, ip: Option<string>, user: UserId, req: Request, p: ProjectId)
    requires Addressed(db, req) && Subject(req) != Some(ProjectResource(p))
    ensures var next := Perform(db, ip, user, req).1;
            (p in next.projects <==> p in db.projects) && (p in db.projects ==> next.projects[p] == db.projects[p])
  {
  }

  lemma OnlyScraperSubjectChanges(db: Tables, ip: Option<string>, user: UserId, req: Request, s: ScraperId)
    requires Addressed(db, req) && Subject(req) != Some(ScraperResource(s))
    ensures var next := Perform(db, ip, user, req).1;
            (s in next.scrapers <==> s in db.scrapers) && (s in db.scrapers ==> next.scrapers[s] == db.scrapers[s])
  {
  }

  lemma OnlyTargetSubjectChanges(db: Tables, ip: Option<string>, user: UserId, req: Request, t: TargetId)
    requires Addressed(db, req) && Subject(req) != Some(TargetResource(t))
    ensures var next := Perform(db, ip, user, req).1;
            (t in next.targets <==> t in db.targets) && (t in db.targets ==> next.targets[t] == db.targets[t])
  {
  }

  lemma LogNamesSubject(db: Tables, ip: Option<string>, user: UserId, req: Request)
    requires Addressed(db, req)
    ensures var next := Perform(db, ip, user, req).1;
            |next.audit| > |db.audit| ==> Subject(req) == Some(next.audit[|db.audit|].resource)
  {
  }

  /** A committed request writes its subject's row and no other, and its audit row names that subject. */
  lemma OnlySubjectChanges(db: Tables, ip: Option<string>, user: UserId, req: Request,
                           p: ProjectId, s: ScraperId, t: TargetId)
    requires Addressed(db, req)
    ensures var next := Perform(db, ip, user, req).1;
            && (Subject(req) != Some(ProjectResource(p)) ==>
                  && (p in next.projects <==> p in db.projects)
                  && (p in db.projects ==> next.projects[p] == db.projects[p]))
            && (Subject(req) != Some(ScraperResource(s)) ==>
                  && (s in next.scrapers <==> s in db.scrapers)
                  && (s in db.scrapers ==> next.scrapers[s] == db.scrapers[s]))
            && (Subject(req) != Some(TargetResource(t)) ==>
                  (t in next.targets <==> t in db.targets) && (t in db.targets ==> next.targets[t] == db.targets[t]))
            && (|next.audit| > |db.audit| ==> Subject(req) == Some(next.audit[|db.audit|].resource))
  {
    if Subject(req) != Some(ProjectResource(p)) {
      OnlyProjectSubjectChanges(db, ip, user, req, p);
    }
    if Subject(req) != Some(ScraperResource(s)) {
      OnlyScraperSubjectChanges(db, ip, user, req, s);
    }
    if Subject(req) != Some(TargetResource(t)) {
      OnlyTargetSubjectChanges(db, ip, user, req, t);
    }
    LogNamesSubject(db, ip, user, req);
  }

  lemma UsersStay(db: Tables, c: Credentials, s: Session, req: Request)
    ensures Handle(db, c, s, req).1.users == db.users
  {
  }

  predicate ReadsOnly(req: Request) {
    || req.ListOrganizations? || req.ListProjects? || req.GetProject? || req.ListScrapers? || req.GetScraper?
    || req.ListTargets?
  }

  // ---------- integrity ----------

  lemma CreateOrganizationIntegrity(db: Tables, ip: Option<string>, user: UserId, name: string, slug: string,
                                    id: OrganizationId)
    requires Integrity(db) && id !in db.organizations && user in db.users
    ensures Integrity(DoCreateOrganization(db, ip, user, name, slug, id).1)
  {
    var (response, next) := DoCreateOrganization(db, ip, user, name, slug, id);
    if !response.Failed? {
      var row := Member(user, id, Owner);
      assert !db.IsMember(user, id);
      UniqueAfter(db.members, row);
      forall v, o ensures FindRole(next.members, v, o) == (if FindRole(db.members, v, o).Some?
                                                           then FindRole(db.members, v, o)
                                                           else if v == user && o == id then Some(Owner) else None) {
        FindRoleAfter(db.members, row, v, o);
      }
      forall o <- next.organizations ensures HasOwner(next, o) {
        if o == id {
          assert GetMembership(next, user, id) == Some(Owner);
        } else {
          AppendKeepsOwner(db, next, row, o);
        }
      }
      CreateOrganizationKeys(db, next, user, id);
    }
  }

  lemma CreateOrganizationKeys(db: Tables, next: Tables, user: UserId, id: OrganizationId)
    requires ForeignKeys(db) && id !in db.organizations && user in db.users
    requires next.users == db.users && next.projects == db.projects && next.scrapers == db.scrapers
    requires next.targets == db.targets && next.organizations.Keys == db.organizations.Keys + {id}
    requires forall v, o :: FindRole(next.members, v, o).Some?
                            ==> FindRole(db.members, v, o).Some? || (v == user && o == id)
    ensures ForeignKeys(next)
  {
  }

  lemma AppendKeepsOwner(db: Tables, next: Tables, row: Member, o: OrganizationId)
    requires HasOwner(db, o) && next.members == db.members + [row]
    ensures HasOwner(next, o)
  {
    var owner :| FindRole(db.members, owner, o) == Some(Owner);
    FindRoleAfter(db.members, row, owner, o);
    assert FindRole(next.members, owner, o) == Some(Owner);
  }

  /** Rows elsewhere do not bear on the owners of organisations. */
  lemma OwnersKept(db: Tables, next: Tables)
    requires Integrity(db) && next.organizations == db.organizations && next.members == db.members
    ensures forall o <- next.organizations :: HasOwner(next, o)
  {
    forall o <- next.organizations ensures HasOwner(next, o) {
      assert HasOwner(db, o);
    }
  }

  lemma ProjectSlugsStayUnique(db: Tables, id: ProjectId, row: Project, log: seq<AuditEntry>)
    requires UniqueSlugs(db)
    requires forall p <- db.projects :: p != id && db.projects[p].organization == row.organization
                                        ==> db.projects[p].slug != row.slug
    ensures UniqueSlugs(db.(projects := db.projects[id := row], audit := log))
  {
  }

  lemma ProjectIntegrity(db: Tables, id: ProjectId, row: Project, log: seq<AuditEntry>)
    requires Integrity(db) && row.organization in db.organizations
    requires forall p <- db.projects :: p != id && db.projects[p].organization == row.organization
                                        ==> db.projects[p].slug != row.slug
    ensures Integrity(db.(projects := db.projects[id := row], audit := log))
  {
    ProjectSlugsStayUnique(db, id, row, log);
    OwnersKept(db, db.(projects := db.projects[id := row], audit := log));
  }

  lemma ScraperSlugsStayUnique(db: Tables, id: ScraperId, row: Scraper, log: seq<AuditEntry>)
    requires UniqueSlugs(db)
    requires forall s <- db.scrapers :: s != id && db.scrapers[s].project == row.project
                                        ==> db.scrapers[s].slug != row.slug
    ensures UniqueSlugs(db.(scrapers := db.scrapers[id := row], audit := log))
  {
  }

  lemma ScraperIntegrity(db: Tables, id: ScraperId, row: Scraper, log: seq<AuditEntry>)
    requires Integrity(db) && row.project in db.projects
    requires forall s <- db.scrapers :: s != id && db.scrapers[s].project == row.project
                                        ==> db.scrapers[s].slug != row.slug
    ensures Integrity(db.(scrapers := db.scrapers[id := row], audit := log))
  {
    ScraperSlugsStayUnique(db, id, row, log);
    OwnersKept(db, db.(scrapers := db.scrapers[id := row], audit := log));
  }

  lemma TargetIntegrity(db: Tables, targets: map<TargetId, Target>, log: seq<AuditEntry>)
    requires Integrity(db) && forall t <- targets :: targets[t].scraper in db.scrapers
    ensures Integrity(db.(targets := targets, audit := log))
  {
    OwnersKept(db, db.(targets := targets, audit := log));
  }

  lemma CreateProjectIntegrity(db: Tables, ip: Option<string>, user: UserId, organization: OrganizationId,
                               body: ProjectCreate, id: ProjectId)
    requires Integrity(db) && id !in db.projects && organization in db.organizations
    ensures Integrity(DoCreateProject(db, ip, user, organization, body, id).1)
  {
    var (response, next) := DoCreateProject(db, ip, user, organization, body, id);
    if !response.Failed? {
      ProjectIntegrity(db, id, next.projects[id], next.audit);
    }
  }

  lemma UpdateProjectIntegrity(db: Tables, ip: Option<string>, id: ProjectId, patch: ProjectUpdate)
    requires Integrity(db) && id in db.projects
    ensures Integrity(DoUpdateProject(db, ip, id, patch).1)
  {
    var (response, next) := DoUpdateProject(db, ip, id, patch);
    if !response.Failed? {
      ProjectIntegrity(db, id, next.projects[id], next.audit);
    }
  }

  lemma CreateScraperIntegrity(db: Tables, ip: Option<string>, user: UserId, project: ProjectId,
                               body: ScraperCreate, id: ScraperId)
    requires Integrity(db) && id !in db.scrapers && project in db.projects
    ensures Integrity(DoCreateScraper(db, ip, user, project, body, id).1)
  {
    var (response, next) := DoCreateScraper(db, ip, user, project, body, id);
    if !response.Failed? {
      ScraperIntegrity(db, id, next.scrapers[id], next.audit);
    }
  }

  lemma UpdateScraperIntegrity(db: Tables, ip: Option<string>, id: ScraperId, patch: ScraperUpdate)
    requires Integrity(db) && id in db.scrapers
    ensures Integrity(DoUpdateScraper(db, ip, id, patch).1)
  {
    var (response, next) := DoUpdateScraper(db, ip, id, patch);
    if !response.Failed? {
      ScraperIntegrity(db, id, next.scrapers[id], next.audit);
    }
  }

  lemma CreateTargetIntegrity(db: Tables, ip: Option<string>, scraper: ScraperId, body: TargetCreate, id: TargetId)
    requires Integrity(db) && scraper in db.scrapers
    ensures Integrity(DoCreateTarget(db, ip, scraper, body, id).1)
  {
    var (response, next) := DoCreateTarget(db, ip, scraper, body, id);
    if !response.Failed? {
      TargetIntegrity(db, next.targets, next.audit);
    }
  }

  lemma UpdateTargetIntegrity(db: Tables, ip: Option<string>, id: TargetId, patch: TargetUpdate)
    requires Integrity(db) && id in db.targets
    ensures Integrity(DoUpdateTarget(db, ip, id, patch).1)
  {
    var (response, next) := DoUpdateTarget(db, ip, id, patch);
    if !response.Failed? {
      TargetIntegrity(db, next.targets, next.audit);
    }
  }

  lemma DeleteTargetIntegrity(db: Tables, ip: Option<string>, id: TargetId)
    requires Integrity(db)
    ensures Integrity(DoDeleteTarget(db, ip, id).1)
  {
    var next := DoDeleteTarget(db, ip, id).1;
    TargetIntegrity(db, next.targets, next.audit);
  }

  lemma ProjectRequestKeepsIntegrity(db: Tables, ip: Option<string>, user: UserId, req: Request)
    requires Integrity(db) && FreshId(db, req) && Addressed(db, req)
    requires req.CreateProject? || req.UpdateProject? || req.ArchiveProject?
    requires req.CreateProject? ==> req.organization in db.organizations
    ensures Integrity(Perform(db, ip, user, req).1)
  {
    match req
    case CreateProject(organization, body, id) => CreateProjectIntegrity(db, ip, user, organization, body, id);
    case UpdateProject(id, patch) => UpdateProjectIntegrity(db, ip, id, patch);
    case ArchiveProject(id) =>
      UpdateProjectIntegrity(db, ip, id, ProjectUpdate(None, None, Some(ProjectStatus.Archived)));
  }

  lemma ScraperRequestKeepsIntegrity(db: Tables, ip: Option<string>, user: UserId, req: Request)
    requires Integrity(db) && FreshId(db, req) && Addressed(db, req)
    requires req.CreateScraper? || req.UpdateScraper? || req.ArchiveScraper?
    ensures Integrity(Perform(db, ip, user, req).1)
  {
    match req
    case CreateScraper(project, body, id) => CreateScraperIntegrity(db, ip, user, project, body, id);
    case UpdateScraper(id, patch) => UpdateScraperIntegrity(db, ip, id, patch);
    case ArchiveScraper(id) =>
      UpdateScraperIntegrity(db, ip, id, ScraperUpdate(None, None, None, Some(ScraperStatus.Archived)));
  }

  lemma TargetRequestKeepsIntegrity(db: Tables, ip: Option<string>, user: UserId, req: Request)
    requires Integrity(db) && Addressed(db, req) && (req.UpdateTarget? || req.DeleteTarget?)
    ensures Integrity(Perform(db, ip, user, req).1)
  {
    match req
    case UpdateTarget(id, patch) => UpdateTargetIntegrity(db, ip, id, patch);
    case DeleteTarget(id) => DeleteTargetIntegrity(db, ip, id);
  }

  lemma PerformKeepsIntegrity(db: Tables, ip: Option<string>, user: UserId, req: Request)
    requires Integrity(db) && FreshId(db, req) && Addressed(db, req) && user in db.users
    requires req.CreateProject? ==> req.organization in db.organizations
    ensures Integrity(Perform(db, ip, user, req).1)
  {
    if req.CreateOrganization? {
      CreateOrganizationIntegrity(db, ip, user, req.name, req.slug, req.newOrganization);
    } else if req.CreateProject? || req.UpdateProject? || req.ArchiveProject? {
      ProjectRequestKeepsIntegrity(db, ip, user, req);
    } else if req.CreateScraper? || req.UpdateScraper? || req.ArchiveScraper? {
      ScraperRequestKeepsIntegrity(db, ip, user, req);
    } else if req.CreateTarget? {
      CreateTargetIntegrity(db, ip, req.scraper, req.newTargetBody, req.newTarget);
    } else if req.UpdateTarget? || req.DeleteTarget? {
      TargetRequestKeepsIntegrity(db, ip, user, req);
    }
  }

  /** Every request keeps the relational invariants. */
  lemma RequestKeepsIntegrity(db: Tables, c: Credentials, s: Session, req: Request)
    requires Integrity(db) && FreshId(db, req)
    ensures Integrity(Handle(db, c, s, req).1)
  {
    var admitted := Admit(db, c, s, req);
    if admitted.Ok? {
      AdmittedOwns(db, c, s, req);
      PerformKeepsIntegrity(db, c.ipAddress, admitted.value, req);
    }
  }

  /** The organisation the row named by a request belongs to, found along the ownership chain. */
  function OwnerAddressed(db: Tables, req: Request): Option<OrganizationId> {
    match req
    case ListOrganizations => None
    case CreateOrganization(_, _, _) => None
    case ListProjects(organization) => Some(organization)
    case CreateProject(organization, _, _) => Some(organization)
    case GetProject(id) => db.OwnerOfProject(id)
    case UpdateProject(id, _) => db.OwnerOfProject(id)
    case ArchiveProject(id) => db.OwnerOfProject(id)
    case ListScrapers(id) => db.OwnerOfProject(id)
    case CreateScraper(id, _, _) => db.OwnerOfProject(id)
    case GetScraper(id) => db.OwnerOfScraper(id)
    case UpdateScraper(id, _) => db.OwnerOfScraper(id)
    case ArchiveScraper(id) => db.OwnerOfScraper(id)
    case ListTargets(id) => db.OwnerOfScraper(id)
    case CreateTarget(id, _, _) => db.OwnerOfScraper(id)
    case UpdateTarget(id, _) => db.OwnerOfTarget(id)
    case DeleteTarget(id) => db.OwnerOfTarget(id)
  }

  /** Whether a role in that organisation suffices for a request: any role lists the projects, a known one
      reads, MANAGER and above change (also by a PATCH to ARCHIVED), and only DELETE of a project or scraper
      needs ADMIN or OWNER. */
  predicate Suffices(role: Role, req: Request) {
    match req
    case ListOrganizations => true
    case CreateOrganization(_, _, _) => true
    case ListProjects(_) => true
    case GetProject(_) => !role.Unrecognised?
    case ListScrapers(_) => !role.Unrecognised?
    case GetScraper(_) => !role.Unrecognised?
    case ListTargets(_) => !role.Unrecognised?
    case ArchiveProject(_) => role in {Admin, Owner}
    case ArchiveScraper(_) => role in {Admin, Owner}
    case _ => role in {Manager, Admin, Owner}
  }

  /** A request that came with a cookie carries the session's own CSRF value, not blank, in both places. */
  predicate SameOrigin(c: Credentials, s: Session) {
    c.cookie.Some? ==> s.csrf.Some? && s.csrf != Some(0) && c.csrfCookie == s.csrf && c.csrfHeader == s.csrf
  }

  predicate Authenticated(db: Tables, c: Credentials, s: Session, user: UserId) {
    && s.user == Some(user) && PresentedToken(c) != BLANK
    && user in db.users && db.users[user] == User(true, ActiveAccount)
  }

  predicate HasRole(db: Tables, owner: Option<OrganizationId>, user: UserId, req: Request) {
    db.BelongsTo(owner, user) && Suffices(GetMembership(db, user, owner.value).value, req)
  }

  predicate NamesOrganization(req: Request) {
    !req.ListOrganizations? && !req.CreateOrganization?
  }

  /** Exactly who may act: an authenticated user, with a sufficient role in the organisation owning the row
      named, past the CSRF check if the request may change something. */
  predicate MayAct(db: Tables, c: Credentials, s: Session, req: Request, user: UserId) {
    && Authenticated(db, c, s, user)
    && (NamesOrganization(req) ==> HasRole(db, OwnerAddressed(db, req), user, req))
    && (!ReadsOnly(req) ==> SameOrigin(c, s))
  }

  lemma AdmittedExactly(db: Tables, c: Credentials, s: Session, req: Request, user: UserId)
    ensures Admit(db, c, s, req) == Ok(user) <==> MayAct(db, c, s, req, user)
  {
  }

  lemma AdmittedOwns(db: Tables, c: Credentials, s: Session, req: Request)
    requires Admit(db, c, s, req).Ok?
    ensures MayAct(db, c, s, req, Admit(db, c, s, req).value)
  {
    AdmittedExactly(db, c, s, req, Admit(db, c, s, req).value);
  }

  function NotFoundFor(req: Request): Failure {
    match req
    case ListProjects(_) => OrganizationNotFound
    case CreateProject(_, _, _) => OrganizationNotFound
    case GetScraper(_) => ScraperNotFound
    case UpdateScraper(_, _) => ScraperNotFound
    case ArchiveScraper(_) => ScraperNotFound
    case ListTargets(_) => ScraperNotFound
    case CreateTarget(_, _, _) => ScraperNotFound
    case UpdateTarget(_, _) => TargetNotFound
    case DeleteTarget(_) => TargetNotFound
    case _ => ProjectNotFound
  }

  /** The POST routes check the CSRF pair before anything else; PATCH and DELETE check it last. */
  predicate ChecksCsrfFirst(req: Request) {
    req.CreateOrganization? || req.CreateProject? || req.CreateScraper? || req.CreateTarget?
  }

  /** An authenticated caller gets the same 404 whether the row is missing or in an organisation the
      caller is no member of, and 404 in no other case, whatever CSRF pair came with a read, a PATCH or a
      DELETE. */
  lemma MissingOrForeign(db: Tables, c: Credentials, s: Session, req: Request, user: UserId)
    requires Authenticated(db, c, s, user) && NamesOrganization(req) && (ChecksCsrfFirst(req) ==> SameOrigin(c, s))
    ensures StatusCode(NotFoundFor(req)) == 404
    ensures !db.BelongsTo(OwnerAddressed(db, req), user)
            <==> Handle(db, c, s, req) == (Failed(NotFoundFor(req)), db)
  {
    if db.BelongsTo(OwnerAddressed(db, req), user) {
      if Admit(db, c, s, req).Ok? {
        NoLaterNotFound(db, c.ipAddress, user, req);
      }
    }
  }

  /** Which refusal a request gets, in the order of the checks; a request that meets none of these
      conditions is admitted. */
  lemma RefusedExactly(db: Tables, c: Credentials, s: Session, req: Request)
    ensures var known := s.user.Some? && Authenticated(db, c, s, s.user.value);
            var owner := OwnerAddressed(db, req);
            var admitted := Admit(db, c, s, req);
            if ChecksCsrfFirst(req) && !SameOrigin(c, s) then admitted == Fail(CsrfFailed)
            else if PresentedToken(c) == BLANK then admitted == Fail(NotAuthenticated)
            else if s.user.None? then admitted == Fail(InvalidSession)
            else if !known then admitted == Fail(AccountNotActive)
            else if NamesOrganization(req) && !db.BelongsTo(owner, s.user.value) then admitted == Fail(NotFoundFor(req))
            else if NamesOrganization(req) && !HasRole(db, owner, s.user.value, req)
            then admitted == Fail(InsufficientRole)
            else if !ReadsOnly(req) && !SameOrigin(c, s) then admitted == Fail(CsrfFailed)
            else admitted == Ok(s.user.value)
    ensures forall f <- {NotAuthenticated, InvalidSession, AccountNotActive} :: StatusCode(f) == 401
    ensures forall f <- {CsrfFailed, InsufficientRole} :: StatusCode(f) == 403
  {
  }

  lemma NoLaterNotFound(db: Tables, ip: Option<string>, user: UserId, req: Request)
    requires Addressed(db, req)
    ensures Perform(db, ip, user, req).0.Failed? ==> StatusCode(Perform(db, ip, user, req).0.failure) != 404
  {
  }

  lemma EnrolIntegrity(db: Tables, row: Member)
    requires Integrity(db) && Allowed(db, Enrol(row))
    ensures Integrity(Apply(db, Enrol(row)))
  {
    var next := Apply(db, Enrol(row));
    UniqueAfter(db.members, row);
    EnrolKeepsKeys(db, row);
    forall o <- db.organizations ensures HasOwner(next, o) {
      AppendKeepsOwner(db, next, row, o);
    }
  }

  lemma EnrolKeepsKeys(db: Tables, row: Member)
    requires ForeignKeys(db) && UniqueSlugs(db) && Allowed(db, Enrol(row))
    ensures ForeignKeys(Apply(db, Enrol(row))) && UniqueSlugs(Apply(db, Enrol(row)))
  {
    var next := Apply(db, Enrol(row));
    forall user, o ensures FindRole(next.members, user, o).Some? ==> user in db.users && o in db.organizations {
      FindRoleAfter(db.members, row, user, o);
    }
  }

  lemma StepKeepsIntegrity(db: Tables, step: Step)
    requires Integrity(db) && Allowed(db, step)
    ensures Integrity(Apply(db, step))
  {
    match step
    case Call(c, s, req) => RequestKeepsIntegrity(db, c, s, req);
    case PutUser(id, account) => OwnersKept(db, Apply(db, step));
    case Enrol(row) => EnrolIntegrity(db, row);
  }

  /** Every reachable state satisfies the relational invariants. */
  lemma {:induction false} RunKeepsIntegrity(db: Tables, steps: seq<Step>)
    requires Integrity(db) && AllowedRun(db, steps)
    ensures Integrity(ApplyAll(db, steps))
    decreases |steps|
  {
    if steps != [] {
      StepKeepsIntegrity(db, steps[0]);
      RunKeepsIntegrity(Apply(db, steps[0]), steps[1..]);
    }
  }

  /** How often the join shows a view: once if it is the view of the user's membership, else never. */
  lemma {:induction false} JoinedCounts(organizations: map<OrganizationId, Organization>, rows: seq<Member>,
                                        user: UserId, v: OrganizationView)
    requires UniqueMembers(rows)
    ensures Joined(organizations, rows, user)[v]
            == if FindRole(rows, user, v.id) == Some(v.role) && v.id in organizations
                  && organizations[v.id] == Organization(v.name, v.slug, v.status) then 1 else 0
    decreases |rows|
  {
    if rows != [] {
      var rest := rows[1..];
      assert UniqueMembers(rest);
      JoinedCounts(organizations, rest, user, v);
      FirstRowIsOnly(rows);
    }
  }

  /** `list_organizations_for_user` returns the caller's organisations, each exactly once, with its own
      fields and the role stored for the caller, and nothing else. */
  lemma OrganizationsListedExactly(db: Tables, user: UserId)
    requires Integrity(db)
    ensures forall v :: OrganizationsOf(db, user)[v]
              == if GetMembership(db, user, v.id) == Some(v.role) && v.id in db.organizations
                    && db.organizations[v.id] == Organization(v.name, v.slug, v.status) then 1 else 0
    ensures forall o :: db.IsMember(user, o) <==> exists v :: v in OrganizationsOf(db, user) && v.id == o
    ensures forall v <- OrganizationsOf(db, user), w <- OrganizationsOf(db, user) :: v.id == w.id ==> v == w
  {
    forall v ensures OrganizationsOf(db, user)[v]
                     == if GetMembership(db, user, v.id) == Some(v.role) && v.id in db.organizations
                           && db.organizations[v.id] == Organization(v.name, v.slug, v.status) then 1 else 0 {
      JoinedCounts(db.organizations, db.members, user, v);
    }
    forall o | db.IsMember(user, o) ensures exists v :: v in OrganizationsOf(db, user) && v.id == o {
      var v := ShowOrganization(o, db.organizations[o], GetMembership(db, user, o).value);
      assert OrganizationsOf(db, user)[v] == 1;
    }
  }

  /** A view is listed if and only if it shows a row of that parent. */
  lemma RowsListedExactly(db: Tables, o: OrganizationId, p: ProjectId, s: ScraperId)
    ensures forall v :: v in ProjectsOf(db, o)
              <==> v.id in db.projects && db.projects[v.id].organization == o
                   && v == ShowProject(v.id, db.projects[v.id])
    ensures forall v :: v in ScrapersOf(db, p)
              <==> v.id in db.scrapers && db.scrapers[v.id].project == p
                   && v == ShowScraper(v.id, db.scrapers[v.id])
    ensures forall v :: v in TargetsOf(db, s)
              <==> v.id in db.targets && db.targets[v.id].scraper == s
                   && v == TargetView(v.id, db.targets[v.id])
  {
  }
}
