/** What each admitted request answers and what it leaves in the tables, from the request and the rows
    alone: every field of the response, of the row written and of the audit row, and exactly when it fails. */
module Answers {
  import opened Options
  import opened Lifecycle
  import opened Database
  import opened Dependencies
  import opened Service
  import opened ServiceRuns

  /** The value after a PATCH whose body may leave the field out. */
  predicate Assigned<T(==)>(given: Option<T>, before: T, after: T) {
    after == match given case Some(value) => value case None => before
  }

  /** The same for a field that may be null; the body cannot set it to null. */
  predicate AssignedOption<T(==)>(given: Option<T>, before: Option<T>, after: Option<T>) {
    after == if given.Some? then given else before
  }

  // ---------- reads ----------

  /** GET /organizations: the caller's memberships, each once, and nothing else. */
  lemma OrganizationsAnswered(db: Tables, c: Credentials, s: Session, user: UserId)
    requires UniqueMembers(db.members) && Admit(db, c, s, ListOrganizations) == Ok(user)
    ensures Handle(db, c, s, ListOrganizations).1 == db
    ensures Handle(db, c, s, ListOrganizations).0.Organizations?
    ensures forall v :: Handle(db, c, s, ListOrganizations).0.organizations[v]
              == if Member(user, v.id, v.role) in db.members && v.id in db.organizations
                    && db.organizations[v.id] == Organization(v.name, v.slug, v.status) then 1 else 0
  {
    forall v ensures OrganizationsOf(db, user)[v]
                     == if Member(user, v.id, v.role) in db.members && v.id in db.organizations
                           && db.organizations[v.id] == Organization(v.name, v.slug, v.status) then 1 else 0 {
      JoinedCounts(db.organizations, db.members, user, v);
      RoleFoundExactly(db.members, user, v.id, v.role);
    }
  }

  /** The three other listings: a view is listed if and only if it shows, field by field, a row of the
      named parent. */
  lemma ProjectsAnswered(db: Tables, c: Credentials, s: Session, user: UserId, o: OrganizationId)
    requires Admit(db, c, s, ListProjects(o)) == Ok(user)
    ensures Handle(db, c, s, ListProjects(o)).1 == db
    ensures Handle(db, c, s, ListProjects(o)).0.Projects?
    ensures forall v :: v in Handle(db, c, s, ListProjects(o)).0.projects
              <==> v.id in db.projects
                   && var row := db.projects[v.id];
                      && row.organization == o && v.organization == o && v.name == row.name && v.slug == row.slug
                      && v.description == row.description && v.status == row.status
  {
  }

  lemma ScrapersAnswered(db: Tables, c: Credentials, s: Session, user: UserId, p: ProjectId)
    requires Admit(db, c, s, ListScrapers(p)) == Ok(user)
    ensures Handle(db, c, s, ListScrapers(p)).1 == db
    ensures Handle(db, c, s, ListScrapers(p)).0.Scrapers?
    ensures forall v :: v in Handle(db, c, s, ListScrapers(p)).0.scrapers
              <==> v.id in db.scrapers
                   && var row := db.scrapers[v.id];
                      && row.project == p && v.project == p && v.name == row.name && v.slug == row.slug
                      && v.engine == row.engine && v.configuration == row.configuration
                      && v.credentialReference == row.credentialReference && v.status == row.status
                      && v.version == row.version
  {
  }

  lemma TargetsAnswered(db: Tables, c: Credentials, s: Session, user: UserId, scraper: ScraperId)
    requires Admit(db, c, s, ListTargets(scraper)) == Ok(user)
    ensures Handle(db, c, s, ListTargets(scraper)).1 == db
    ensures Handle(db, c, s, ListTargets(scraper)).0.Targets?
    ensures forall v :: v in Handle(db, c, s, ListTargets(scraper)).0.targets
              <==> v.id in db.targets && db.targets[v.id].scraper == scraper && v.row == db.targets[v.id]
  {
  }

  /** GET of one project or scraper shows the stored row, field by field. */
  lemma RowAnswered(db: Tables, c: Credentials, s: Session, user: UserId, p: ProjectId, scraper: ScraperId)
    ensures Admit(db, c, s, GetProject(p)) == Ok(user) ==>
              && p in db.projects
              && var row := db.projects[p];
                 Handle(db, c, s, GetProject(p))
                 == (OneProject(ProjectView(p, row.organization, row.name, row.slug, row.description, row.status)), db)
    ensures Admit(db, c, s, GetScraper(scraper)) == Ok(user) ==>
              && scraper in db.scrapers
              && var row := db.scrapers[scraper];
                 Handle(db, c, s, GetScraper(scraper))
                 == (OneScraper(ScraperView(scraper, row.project, row.name, row.slug, row.engine, row.configuration,
                                            row.credentialReference, row.status, row.version)), db)
  {
  }

  // ---------- organisations ----------

  /** POST /organizations fails exactly for a slug in use anywhere; else the caller becomes OWNER of an
      active organisation with the given name and slug. */
  lemma CreatesOrganization(db: Tables, c: Credentials, s: Session, user: UserId, name: string, slug: string,
                            id: OrganizationId)
    requires Admit(db, c, s, CreateOrganization(name, slug, id)) == Ok(user)
    ensures var (response, next) := Handle(db, c, s, CreateOrganization(name, slug, id));
            if exists o <- db.organizations :: db.organizations[o].slug == slug
            then response == Failed(SlugTaken) && StatusCode(SlugTaken) == 409 && next == db
            else
              && response == OneOrganization(OrganizationView(id, name, slug, ActiveOrganization, Owner))
              && next.organizations == db.organizations[id := Organization(name, slug, ActiveOrganization)]
              && next.members == db.members + [Member(user, id, Owner)]
              && next.audit == db.audit + [AuditEntry(OrganizationCreated, Some(user), Some(id),
                                                      OrganizationResource(id), c.ipAddress, None)]
              && next.users == db.users && next.projects == db.projects && next.scrapers == db.scrapers
              && next.targets == db.targets
  {
  }

  // ---------- projects ----------

  /** Only project rows and the log may differ, and only in this project and by this audit row. */
  predicate ProjectWritten(db: Tables, next: Tables, id: ProjectId, entry: AuditEntry) {
    && id in next.projects
    && next == db.(projects := db.projects[id := next.projects[id]], audit := db.audit + [entry])
  }

  predicate ShowsProject(view: ProjectView, id: ProjectId, row: Project) {
    && view.id == id && view.organization == row.organization && view.name == row.name && view.slug == row.slug
    && view.description == row.description && view.status == row.status
  }

  /** POST of a project fails exactly for a slug in use in the organisation; else the row is a DRAFT with the
      body's fields, created by the caller. */
  lemma CreatesProject(db: Tables, c: Credentials, s: Session, user: UserId, o: OrganizationId, body: ProjectCreate,
                       id: ProjectId)
    requires Admit(db, c, s, CreateProject(o, body, id)) == Ok(user)
    ensures var (response, next) := Handle(db, c, s, CreateProject(o, body, id));
            if exists p <- db.projects :: db.projects[p].organization == o && db.projects[p].slug == body.slug
            then response == Failed(SlugTaken) && StatusCode(SlugTaken) == 409 && next == db
            else
              && ProjectWritten(db, next, id, AuditEntry(ProjectCreated, Some(user), Some(o),
                                                         ProjectResource(id), c.ipAddress, None))
              && var row := next.projects[id];
                 && row.organization == o && row.name == body.name && row.slug == body.slug
                 && row.description == body.description && row.status == ProjectStatus.Draft && row.createdBy == user
                 && response.OneProject? && ShowsProject(response.project, id, row)
  {
  }

  /** A status moves to any other but DRAFT, but not from DRAFT to a suspension, and from ARCHIVED to none. */
  predicate ProjectMayMove(current: ProjectStatus, requested: ProjectStatus) {
    && current != requested && !current.Archived? && !requested.Draft?
    && !(current.Draft? && requested.Paused?)
  }

  predicate ScraperMayMove(current: ScraperStatus, requested: ScraperStatus) {
    && current != requested && !current.Archived? && !requested.Draft?
    && !(current.Draft? && requested.Disabled?)
  }

  /** PATCH of a project fails exactly for a status it may not move to; else every field given has the given
      value, every other its old one, and the event names the transition. */
  lemma PatchesProject(db: Tables, c: Credentials, s: Session, user: UserId, id: ProjectId, patch: ProjectUpdate)
    requires Admit(db, c, s, UpdateProject(id, patch)) == Ok(user)
    ensures id in db.projects
    ensures var (response, next) := Handle(db, c, s, UpdateProject(id, patch));
            var was := db.projects[id];
            if patch.status.Some? && !ProjectMayMove(was.status, patch.status.value)
            then
              var failure := InvalidProjectTransition(was.status, patch.status.value);
              response == Failed(failure) && StatusCode(failure) == 409 && next == db
            else
              var action := match patch.status
                            case Some(Active) => ProjectActivated
                            case Some(Paused) => ProjectPaused
                            case Some(Archived) => ProjectArchived
                            case _ => ProjectUpdated;
              && ProjectWritten(db, next, id, AuditEntry(action, None, Some(was.organization), ProjectResource(id),
                                                         c.ipAddress, None))
              && var row := next.projects[id];
                 && Assigned(patch.name, was.name, row.name)
                 && AssignedOption(patch.description, was.description, row.description)
                 && Assigned(patch.status, was.status, row.status)
                 && row.organization == was.organization && row.slug == was.slug && row.createdBy == was.createdBy
                 && response.OneProject? && ShowsProject(response.project, id, row)
  {
    if patch.status.Some? {
      TransitionGraphs(db.projects[id].status, patch.status.value, ScraperStatus.Draft, ScraperStatus.Draft);
    }
  }

  /** DELETE of a project fails exactly when it is archived already; else only its status changes. */
  lemma ArchivesProject(db: Tables, c: Credentials, s: Session, user: UserId, id: ProjectId)
    requires Admit(db, c, s, ArchiveProject(id)) == Ok(user)
    ensures id in db.projects
    ensures var (response, next) := Handle(db, c, s, ArchiveProject(id));
            var was := db.projects[id];
            if was.status == ProjectStatus.Archived
            then
              var failure := InvalidProjectTransition(ProjectStatus.Archived, ProjectStatus.Archived);
              response == Failed(failure) && StatusCode(failure) == 409 && next == db
            else
              && ProjectWritten(db, next, id, AuditEntry(ProjectArchived, None, Some(was.organization),
                                                         ProjectResource(id), c.ipAddress, None))
              && next.projects[id] == was.(status := ProjectStatus.Archived)
              && response.OneProject? && ShowsProject(response.project, id, next.projects[id])
  {
  }

  // ---------- scrapers ----------

  predicate ScraperWritten(db: Tables, next: Tables, id: ScraperId, entry: AuditEntry) {
    && id in next.scrapers
    && next == db.(scrapers := db.scrapers[id := next.scrapers[id]], audit := db.audit + [entry])
  }

  predicate ShowsScraper(view: ScraperView, id: ScraperId, row: Scraper) {
    && view.id == id && view.project == row.project && view.name == row.name && view.slug == row.slug
    && view.engine == row.engine && view.configuration == row.configuration
    && view.credentialReference == row.credentialReference && view.status == row.status
    && view.version == row.version
  }

  /** POST of a scraper fails exactly for a slug in use in the project; else the row is a DRAFT of version 1
      with the body's fields. */
  lemma CreatesScraper(db: Tables, c: Credentials, s: Session, user: UserId, p: ProjectId, body: ScraperCreate,
                       id: ScraperId)
    requires Admit(db, c, s, CreateScraper(p, body, id)) == Ok(user)
    ensures p in db.projects
    ensures var (response, next) := Handle(db, c, s, CreateScraper(p, body, id));
            if exists x <- db.scrapers :: db.scrapers[x].project == p && db.scrapers[x].slug == body.slug
            then response == Failed(SlugTaken) && StatusCode(SlugTaken) == 409 && next == db
            else
              && ScraperWritten(db, next, id, AuditEntry(ScraperCreated, None, Some(db.projects[p].organization),
                                                         ScraperResource(id), c.ipAddress, Some(body.engine)))
              && var row := next.scrapers[id];
                 && row.project == p && row.name == body.name && row.slug == body.slug && row.engine == body.engine
                 && row.credentialReference == body.credentialReference && row.status == ScraperStatus.Draft
                 && row.version == 1 && row.createdBy == user
                 && response.OneScraper? && ShowsScraper(response.scraper, id, row)
  {
  }

  /** Its configuration is the one given, or the default of its engine. */
  lemma CreatesConfiguration(db: Tables, c: Credentials, s: Session, user: UserId, p: ProjectId, body: ScraperCreate,
                             id: ScraperId)
    requires Admit(db, c, s, CreateScraper(p, body, id)) == Ok(user)
    ensures var (response, next) := Handle(db, c, s, CreateScraper(p, body, id));
            !response.Failed? ==>
              && id in next.scrapers
              && next.scrapers[id].configuration
                 == match body.configuration
                    case Some(given) => given
                    case None =>
                      match body.engine
                      case HTTP => HttpConfiguration(30, 5, 1, None, None, map[])
                      case BROWSER => BrowserConfiguration(60, 1, None, 1280, 720, "load")
                      case SCRAPY => ScrapyConfiguration(30, 1, true)
  {
  }

  /** PATCH of a scraper fails exactly for a status it may not move to; else every field given has the given
      value, every other its old one, the version has grown by one if a configuration was given, and the
      event names the transition, else the reconfiguration. */
  lemma PatchesScraper(db: Tables, c: Credentials, s: Session, user: UserId, id: ScraperId, patch: ScraperUpdate)
    requires Admit(db, c, s, UpdateScraper(id, patch)) == Ok(user)
    ensures id in db.scrapers
    ensures var (response, next) := Handle(db, c, s, UpdateScraper(id, patch));
            var was := db.scrapers[id];
            if patch.status.Some? && !ScraperMayMove(was.status, patch.status.value)
            then
              var failure := InvalidScraperTransition(was.status, patch.status.value);
              response == Failed(failure) && StatusCode(failure) == 409 && next == db
            else
              var action := match patch.status
                            case Some(Active) => ScraperEnabled
                            case Some(Disabled) => ScraperDisabled
                            case Some(Archived) => ScraperArchived
                            case Some(Draft) => ScraperUpdated
                            case None =>
                              if patch.configuration.Some? then ScraperConfigurationChanged else ScraperUpdated;
              && ScraperWritten(db, next, id, AuditEntry(action, None, None, ScraperResource(id), c.ipAddress, None))
              && var row := next.scrapers[id];
                 && Assigned(patch.name, was.name, row.name)
                 && Assigned(patch.configuration, was.configuration, row.configuration)
                 && AssignedOption(patch.credentialReference, was.credentialReference, row.credentialReference)
                 && Assigned(patch.status, was.status, row.status)
                 && row.version == was.version + (if patch.configuration.Some? then 1 else 0)
                 && row.project == was.project && row.slug == was.slug && row.engine == was.engine
                 && row.createdBy == was.createdBy
                 && response.OneScraper? && ShowsScraper(response.scraper, id, row)
  {
    if patch.status.Some? {
      TransitionGraphs(ProjectStatus.Draft, ProjectStatus.Draft, db.scrapers[id].status, patch.status.value);
    }
  }

  /** DELETE of a scraper fails exactly when it is archived already; else only its status changes. */
  lemma ArchivesScraper(db: Tables, c: Credentials, s: Session, user: UserId, id: ScraperId)
    requires Admit(db, c, s, ArchiveScraper(id)) == Ok(user)
    ensures id in db.scrapers
    ensures var (response, next) := Handle(db, c, s, ArchiveScraper(id));
            var was := db.scrapers[id];
            if was.status == ScraperStatus.Archived
            then
              var failure := InvalidScraperTransition(ScraperStatus.Archived, ScraperStatus.Archived);
              response == Failed(failure) && StatusCode(failure) == 409 && next == db
            else
              && ScraperWritten(db, next, id, AuditEntry(ScraperArchived, None, None, ScraperResource(id),
                                                         c.ipAddress, None))
              && next.scrapers[id] == was.(status := ScraperStatus.Archived)
              && response.OneScraper? && ShowsScraper(response.scraper, id, next.scrapers[id])
  {
  }

  // ---------- targets ----------

  predicate TargetWritten(db: Tables, next: Tables, id: TargetId, entry: AuditEntry) {
    && id in next.targets
    && next == db.(targets := db.targets[id := next.targets[id]], audit := db.audit + [entry])
  }

  /** POST of a target fails exactly for an unsafe URL; else the row has the body's fields. */
  lemma CreatesTarget(db: Tables, c: Credentials, s: Session, user: UserId, scraper: ScraperId, body: TargetCreate,
                      id: TargetId)
    requires Admit(db, c, s, CreateTarget(scraper, body, id)) == Ok(user)
    ensures var (response, next) := Handle(db, c, s, CreateTarget(scraper, body, id));
            if !body.url.safe then response == Failed(UnsafeUrl) && StatusCode(UnsafeUrl) == 422 && next == db
            else
              && TargetWritten(db, next, id, AuditEntry(TargetCreated, None, None, TargetResource(id),
                                                        c.ipAddress, None))
              && var row := next.targets[id];
                 && row.scraper == scraper && row.url == body.url.text && row.name == body.name
                 && row.enabled == body.enabled && row.priority == body.priority
                 && response.OneTarget? && response.target.id == id && response.target.row == row
  {
  }

  /** PATCH of a target fails exactly for an unsafe URL; else every field given has the given value, every
      other its old one. */
  lemma PatchesTarget(db: Tables, c: Credentials, s: Session, user: UserId, id: TargetId, patch: TargetUpdate)
    requires Admit(db, c, s, UpdateTarget(id, patch)) == Ok(user)
    ensures id in db.targets
    ensures var (response, next) := Handle(db, c, s, UpdateTarget(id, patch));
            if patch.url.Some? && !patch.url.value.safe
            then response == Failed(UnsafeUrl) && StatusCode(UnsafeUrl) == 422 && next == db
            else
              && TargetWritten(db, next, id, AuditEntry(TargetUpdated, None, None, TargetResource(id),
                                                        c.ipAddress, None))
              && var was, row := db.targets[id], next.targets[id];
                 && row.url == (if patch.url.Some? then patch.url.value.text else was.url)
                 && AssignedOption(patch.name, was.name, row.name)
                 && Assigned(patch.enabled, was.enabled, row.enabled)
                 && Assigned(patch.priority, was.priority, row.priority) && row.scraper == was.scraper
                 && response.OneTarget? && response.target.id == id && response.target.row == row
  {
  }

  /** DELETE of a target never fails: the row goes, every other stays. */
  lemma RemovesTarget(db: Tables, c: Credentials, s: Session, user: UserId, id: TargetId)
    requires Admit(db, c, s, DeleteTarget(id)) == Ok(user)
    ensures var (response, next) := Handle(db, c, s, DeleteTarget(id));
            && response == NoContent && id !in next.targets && next.targets.Keys == db.targets.Keys - {id}
            && (forall t <- next.targets :: next.targets[t] == db.targets[t])
            && next == db.(targets := next.targets,
                           audit := db.audit + [AuditEntry(TargetDeleted, None, None, TargetResource(id),
                                                           c.ipAddress, None)])
  {
  }

  /** No request removes a target but an admitted DELETE of it. */
  lemma TargetsStay(db: Tables, c: Credentials, s: Session, req: Request, t: TargetId)
    requires t in db.targets
    ensures t !in Handle(db, c, s, req).1.targets <==> req == DeleteTarget(t) && Admit(db, c, s, req).Ok?
  {
  }
}
