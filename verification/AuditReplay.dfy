/** The committed audit log replays to the committed statuses, and versions identify configurations. */
module AuditReplay {
  import opened Options
  import opened Lifecycle
  import opened Database
  import opened Dependencies
  import opened Service
  import opened ServiceRuns

  /** The status a project event announces; other events announce none. */
  function AnnouncedForProject(action: Action): Option<ProjectStatus> {
    match action
    case ProjectActivated => Some(ProjectStatus.Active)
    case ProjectPaused => Some(ProjectStatus.Paused)
    case ProjectArchived => Some(ProjectStatus.Archived)
    case _ => None
  }

  function AnnouncedForScraper(action: Action): Option<ScraperStatus> {
    match action
    case ScraperEnabled => Some(ScraperStatus.Active)
    case ScraperDisabled => Some(ScraperStatus.Disabled)
    case ScraperArchived => Some(ScraperStatus.Archived)
    case _ => None
  }

  /** The status reached from DRAFT by following the log's events about one project; None once the log
      leaves the transition graph. */
  function ReplayProject(log: seq<AuditEntry>, id: ProjectId): Option<ProjectStatus> {
    if log == [] then Some(ProjectStatus.Draft)
    else
      var before := ReplayProject(log[..|log| - 1], id);
      var entry := log[|log| - 1];
      if before.None? || entry.resource != ProjectResource(id) then before
      else
        var announced := AnnouncedForProject(entry.action);
        if announced.None? then before
        else if announced.value in ProjectTransitions(before.value) then announced
        else None
  }

  function ReplayScraper(log: seq<AuditEntry>, id: ScraperId): Option<ScraperStatus> {
    if log == [] then Some(ScraperStatus.Draft)
    else
      var before := ReplayScraper(log[..|log| - 1], id);
      var entry := log[|log| - 1];
      if before.None? || entry.resource != ScraperResource(id) then before
      else
        var announced := AnnouncedForScraper(entry.action);
        if announced.None? then before
        else if announced.value in ScraperTransitions(before.value) then announced
        else None
  }

  /** However a log goes on, DRAFT is never re-entered and ARCHIVED is final, for projects ... */
  lemma {:induction false} ProjectReplayIsOneWay(log: seq<AuditEntry>, more: seq<AuditEntry>, id: ProjectId)
    requires ReplayProject(log + more, id).Some?
    ensures ReplayProject(log, id).Some?
    ensures ReplayProject(log, id).value == ProjectStatus.Archived
            ==> ReplayProject(log + more, id).value == ProjectStatus.Archived
    ensures ReplayProject(log + more, id).value == ProjectStatus.Draft
            ==> ReplayProject(log, id).value == ProjectStatus.Draft
    decreases |more|
  {
    if more == [] {
      assert log + more == log;
    } else {
      var all := log + more;
      assert all[..|all| - 1] == log + more[..|more| - 1];
      ProjectReplayIsOneWay(log, more[..|more| - 1], id);
    }
  }

  /** ... and for scrapers. */
  lemma {:induction false} ScraperReplayIsOneWay(log: seq<AuditEntry>, more: seq<AuditEntry>, id: ScraperId)
    requires ReplayScraper(log + more, id).Some?
    ensures ReplayScraper(log, id).Some?
    ensures ReplayScraper(log, id).value == ScraperStatus.Archived
            ==> ReplayScraper(log + more, id).value == ScraperStatus.Archived
    ensures ReplayScraper(log + more, id).value == ScraperStatus.Draft
            ==> ReplayScraper(log, id).value == ScraperStatus.Draft
    decreases |more|
  {
    if more == [] {
      assert log + more == log;
    } else {
      var all := log + more;
      assert all[..|all| - 1] == log + more[..|more| - 1];
      ScraperReplayIsOneWay(log, more[..|more| - 1], id);
    }
  }

  // ---------- the invariant ----------

  /** Following the log's events about an id from DRAFT gives its row's status; an id without a row has
      no status event in the log. */
  ghost predicate ProjectsReplay(db: Tables) {
    forall p :: ReplayProject(db.audit, p)
                == Some(if p in db.projects then db.projects[p].status else ProjectStatus.Draft)
  }

  ghost predicate ScrapersReplay(db: Tables) {
    forall s :: ReplayScraper(db.audit, s)
                == Some(if s in db.scrapers then db.scrapers[s].status else ScraperStatus.Draft)
  }

  ghost predicate Faithful(db: Tables) {
    ProjectsReplay(db) && ScrapersReplay(db)
  }

  lemma ReplayOneMore(log: seq<AuditEntry>, entry: AuditEntry, p: ProjectId, s: ScraperId)
    ensures ReplayProject(log + [entry], p)
            == (var before := ReplayProject(log, p);
                var announced := AnnouncedForProject(entry.action);
                if before.None? || entry.resource != ProjectResource(p) || announced.None? then before
                else if announced.value in ProjectTransitions(before.value) then announced else None)
    ensures ReplayScraper(log + [entry], s)
            == (var before := ReplayScraper(log, s);
                var announced := AnnouncedForScraper(entry.action);
                if before.None? || entry.resource != ScraperResource(s) || announced.None? then before
                else if announced.value in ScraperTransitions(before.value) then announced else None)
  {
    var longer := log + [entry];
    assert longer[..|longer| - 1] == log && longer[|longer| - 1] == entry;
  }

  /** A row written together with the one event that tells its change of status. */
  lemma ProjectWriteReplays(db: Tables, id: ProjectId, row: Project, entry: AuditEntry)
    requires Faithful(db) && entry.resource == ProjectResource(id)
    requires var was := if id in db.projects then db.projects[id].status else ProjectStatus.Draft;
             match AnnouncedForProject(entry.action)
             case None => row.status == was
             case Some(announced) => row.status == announced && announced in ProjectTransitions(was)
    ensures Faithful(db.(projects := db.projects[id := row], audit := db.audit + [entry]))
  {
    var next := db.(projects := db.projects[id := row], audit := db.audit + [entry]);
    forall p ensures ReplayProject(next.audit, p)
                     == Some(if p in next.projects then next.projects[p].status else ProjectStatus.Draft) {
      ReplayOneMore(db.audit, entry, p, 0);
    }
    forall s ensures ReplayScraper(next.audit, s)
                     == Some(if s in next.scrapers then next.scrapers[s].status else ScraperStatus.Draft) {
      ReplayOneMore(db.audit, entry, 0, s);
    }
  }

  lemma ScraperWriteReplays(db: Tables, id: ScraperId, row: Scraper, entry: AuditEntry)
    requires Faithful(db) && entry.resource == ScraperResource(id)
    requires var was := if id in db.scrapers then db.scrapers[id].status else ScraperStatus.Draft;
             match AnnouncedForScraper(entry.action)
             case None => row.status == was
             case Some(announced) => row.status == announced && announced in ScraperTransitions(was)
    ensures Faithful(db.(scrapers := db.scrapers[id := row], audit := db.audit + [entry]))
  {
    var next := db.(scrapers := db.scrapers[id := row], audit := db.audit + [entry]);
    forall p ensures ReplayProject(next.audit, p)
                     == Some(if p in next.projects then next.projects[p].status else ProjectStatus.Draft) {
      ReplayOneMore(db.audit, entry, p, 0);
    }
    forall s ensures ReplayScraper(next.audit, s)
                     == Some(if s in next.scrapers then next.scrapers[s].status else ScraperStatus.Draft) {
      ReplayOneMore(db.audit, entry, 0, s);
    }
  }

  /** A change elsewhere, with an event about something that is neither a project nor a scraper. */
  lemma OtherWriteReplays(db: Tables, next: Tables, entry: AuditEntry)
    requires Faithful(db) && next.projects == db.projects && next.scrapers == db.scrapers
    requires next.audit == db.audit + [entry]
             && (entry.resource.TargetResource? || entry.resource.OrganizationResource?)
    ensures Faithful(next)
  {
    forall p ensures ReplayProject(next.audit, p) == ReplayProject(db.audit, p) {
      ReplayOneMore(db.audit, entry, p, 0);
    }
    forall s ensures ReplayScraper(next.audit, s) == ReplayScraper(db.audit, s) {
      ReplayOneMore(db.audit, entry, 0, s);
    }
  }

  lemma ProjectRequestReplays(db: Tables, ip: Option<string>, user: UserId, req: Request)
    requires Faithful(db) && FreshId(db, req) && Addressed(db, req)
    requires req.CreateProject? || req.UpdateProject? || req.ArchiveProject?
    ensures Faithful(Perform(db, ip, user, req).1)
  {
    var (response, next) := Perform(db, ip, user, req);
    if !response.Failed? {
      var id := if req.CreateProject? then req.newProject else req.project;
      ProjectWriteReplays(db, id, next.projects[id], next.audit[|db.audit|]);
    }
  }

  lemma PatchScraperReplays(db: Tables, ip: Option<string>, id: ScraperId, patch: ScraperUpdate)
    requires Faithful(db) && id in db.scrapers
    ensures Faithful(DoUpdateScraper(db, ip, id, patch).1)
  {
    var (response, next) := DoUpdateScraper(db, ip, id, patch);
    if !response.Failed? {
      ScraperWriteReplays(db, id, next.scrapers[id], next.audit[|db.audit|]);
    }
  }

  lemma CreateScraperReplays(db: Tables, ip: Option<string>, user: UserId, project: ProjectId, body: ScraperCreate,
                             id: ScraperId)
    requires Faithful(db) && id !in db.scrapers
    ensures Faithful(DoCreateScraper(db, ip, user, project, body, id).1)
  {
    var (response, next) := DoCreateScraper(db, ip, user, project, body, id);
    if !response.Failed? {
      ScraperWriteReplays(db, id, next.scrapers[id], next.audit[|db.audit|]);
    }
  }

  lemma ScraperRequestReplays(db: Tables, ip: Option<string>, user: UserId, req: Request)
    requires Faithful(db) && FreshId(db, req) && Addressed(db, req)
    requires req.CreateScraper? || req.UpdateScraper? || req.ArchiveScraper?
    ensures Faithful(Perform(db, ip, user, req).1)
  {
    match req
    case CreateScraper(project, body, id) => CreateScraperReplays(db, ip, user, project, body, id);
    case UpdateScraper(id, patch) => PatchScraperReplays(db, ip, id, patch);
    case ArchiveScraper(id) =>
      PatchScraperReplays(db, ip, id, ScraperUpdate(None, None, None, Some(ScraperStatus.Archived)));
  }

  lemma OtherRequestReplays(db: Tables, ip: Option<string>, user: UserId, req: Request)
    requires Faithful(db) && Addressed(db, req)
    requires req.CreateOrganization? || req.CreateTarget? || req.UpdateTarget? || req.DeleteTarget?
    ensures Faithful(Perform(db, ip, user, req).1)
  {
    var (response, next) := Perform(db, ip, user, req);
    if !response.Failed? {
      OtherWriteReplays(db, next, next.audit[|db.audit|]);
    }
  }

  lemma RequestReplays(db: Tables, c: Credentials, s: Session, req: Request)
    requires Faithful(db) && FreshId(db, req)
    ensures Faithful(Handle(db, c, s, req).1)
  {
    var admitted := Admit(db, c, s, req);
    if admitted.Ok? {
      PerformReplays(db, c.ipAddress, admitted.value, req);
    }
  }

  lemma PerformReplays(db: Tables, ip: Option<string>, user: UserId, req: Request)
    requires Faithful(db) && FreshId(db, req) && Addressed(db, req)
    ensures Faithful(Perform(db, ip, user, req).1)
  {
    if ReadsOnly(req) {
      assert Perform(db, ip, user, req).1 == db;
    } else if req.CreateProject? || req.UpdateProject? || req.ArchiveProject? {
      ProjectRequestReplays(db, ip, user, req);
    } else if req.CreateScraper? || req.UpdateScraper? || req.ArchiveScraper? {
      ScraperRequestReplays(db, ip, user, req);
    } else {
      OtherRequestReplays(db, ip, user, req);
    }
  }

  /** In every reachable state, for every project and scraper, replaying the committed log from DRAFT
      follows the transition graph and ends in the current status. */
  lemma {:induction false} LogReplaysToStatus(db: Tables, steps: seq<Step>)
    requires Faithful(db) && AllowedRun(db, steps)
    ensures Faithful(ApplyAll(db, steps))
    decreases |steps|
  {
    if steps != [] {
      var next := Apply(db, steps[0]);
      assert Faithful(next) by {
        if steps[0].Call? {
          RequestReplays(db, steps[0].c, steps[0].s, steps[0].req);
        } else {
          assert next.audit == db.audit && next.projects == db.projects && next.scrapers == db.scrapers;
        }
      }
      LogReplaysToStatus(next, steps[1..]);
    }
  }

  lemma EmptyIsFaithful()
    ensures Faithful(EMPTY_TABLES) && Integrity(EMPTY_TABLES)
  {
  }

  /** The log only grows, and no project or scraper is ever removed. */
  lemma {:induction false} LogGrows(db: Tables, steps: seq<Step>)
    requires AllowedRun(db, steps)
    ensures db.audit <= ApplyAll(db, steps).audit
    ensures db.projects.Keys <= ApplyAll(db, steps).projects.Keys
            && db.scrapers.Keys <= ApplyAll(db, steps).scrapers.Keys
    decreases |steps|
  {
    if steps != [] {
      var next := Apply(db, steps[0]);
      if steps[0].Call? {
        AllOrNothing(db, steps[0].c, steps[0].s, steps[0].req);
        RowsStay(db, steps[0].c, steps[0].s, steps[0].req);
      }
      LogGrows(next, steps[1..]);
    }
  }

  lemma RowsStay(db: Tables, c: Credentials, s: Session, req: Request)
    ensures var next := Handle(db, c, s, req).1;
            db.projects.Keys <= next.projects.Keys && db.scrapers.Keys <= next.scrapers.Keys
  {
  }

  /** Over any run: once archived, always archived; once out of DRAFT, never back. */
  lemma LifecyclesAreOneWay(db: Tables, steps: seq<Step>)
    requires Faithful(db) && AllowedRun(db, steps)
    ensures var next := ApplyAll(db, steps);
            && (forall p <- db.projects :: p in next.projects
                  && (db.projects[p].status == ProjectStatus.Archived
                      ==> next.projects[p].status == ProjectStatus.Archived)
                  && (next.projects[p].status == ProjectStatus.Draft ==> db.projects[p].status == ProjectStatus.Draft))
            && (forall s <- db.scrapers :: s in next.scrapers
                  && (db.scrapers[s].status == ScraperStatus.Archived
                      ==> next.scrapers[s].status == ScraperStatus.Archived)
                  && (next.scrapers[s].status == ScraperStatus.Draft ==> db.scrapers[s].status == ScraperStatus.Draft))
  {
    var next := ApplyAll(db, steps);
    LogReplaysToStatus(db, steps);
    LogGrows(db, steps);
    var more := next.audit[|db.audit|..];
    assert next.audit == db.audit + more;
    forall p <- db.projects
      ensures p in next.projects
      ensures db.projects[p].status == ProjectStatus.Archived ==> next.projects[p].status == ProjectStatus.Archived
      ensures next.projects[p].status == ProjectStatus.Draft ==> db.projects[p].status == ProjectStatus.Draft
    {
      ProjectReplayIsOneWay(db.audit, more, p);
    }
    forall s <- db.scrapers
      ensures s in next.scrapers
      ensures db.scrapers[s].status == ScraperStatus.Archived ==> next.scrapers[s].status == ScraperStatus.Archived
      ensures next.scrapers[s].status == ScraperStatus.Draft ==> db.scrapers[s].status == ScraperStatus.Draft
    {
      ScraperReplayIsOneWay(db.audit, more, s);
    }
  }

  // ---------- versions ----------

  /** The step is an accepted PATCH of scraper `id` that carries a configuration. */
  predicate Reconfigures(db: Tables, step: Step, id: ScraperId) {
    && step.Call? && step.req.UpdateScraper? && step.req.scraper == id && step.req.scraperPatch.configuration.Some?
    && !Handle(db, step.c, step.s, step.req).0.Failed?
  }

  function Reconfigurations(db: Tables, steps: seq<Step>, id: ScraperId): nat
    decreases |steps|
  {
    if steps == [] then 0
    else (if Reconfigures(db, steps[0], id) then 1 else 0) + Reconfigurations(Apply(db, steps[0]), steps[1..], id)
  }

  lemma PatchVersions(db: Tables, ip: Option<string>, patched: ScraperId, patch: ScraperUpdate, id: ScraperId)
    requires id in db.scrapers && patched in db.scrapers
    ensures var (response, next) := DoUpdateScraper(db, ip, patched, patch);
            var bumped := patched == id && patch.configuration.Some? && !response.Failed?;
            && id in next.scrapers
            && next.scrapers[id].version == db.scrapers[id].version + (if bumped then 1 else 0)
            && (!bumped ==> next.scrapers[id].configuration == db.scrapers[id].configuration)
  {
  }

  lemma OtherRequestKeepsScraper(db: Tables, ip: Option<string>, user: UserId, req: Request, id: ScraperId)
    requires id in db.scrapers && FreshId(db, req) && Addressed(db, req)
    requires !req.UpdateScraper? && !req.ArchiveScraper?
    ensures var next := Perform(db, ip, user, req).1;
            id in next.scrapers && next.scrapers[id] == db.scrapers[id]
  {
  }

  lemma StepVersions(db: Tables, step: Step, id: ScraperId)
    requires id in db.scrapers && Allowed(db, step)
    ensures var next := Apply(db, step);
            && id in next.scrapers
            && next.scrapers[id].version == db.scrapers[id].version + (if Reconfigures(db, step, id) then 1 else 0)
            && (!Reconfigures(db, step, id) ==> next.scrapers[id].configuration == db.scrapers[id].configuration)
  {
    if step.Call? {
      var admitted := Admit(db, step.c, step.s, step.req);
      if admitted.Ok? {
        PerformVersions(db, step.c.ipAddress, admitted.value, step.req, id);
      }
    }
  }

  lemma PerformVersions(db: Tables, ip: Option<string>, user: UserId, req: Request, id: ScraperId)
    requires id in db.scrapers && FreshId(db, req) && Addressed(db, req)
    ensures var (response, next) := Perform(db, ip, user, req);
            var bumped := req.UpdateScraper? && req.scraper == id && req.scraperPatch.configuration.Some?
                          && !response.Failed?;
            && id in next.scrapers
            && next.scrapers[id].version == db.scrapers[id].version + (if bumped then 1 else 0)
            && (!bumped ==> next.scrapers[id].configuration == db.scrapers[id].configuration)
  {
    if req.UpdateScraper? {
      PatchVersions(db, ip, req.scraper, req.scraperPatch, id);
    } else if req.ArchiveScraper? {
      PatchVersions(db, ip, req.scraper, ScraperUpdate(None, None, None, Some(ScraperStatus.Archived)), id);
    } else {
      OtherRequestKeepsScraper(db, ip, user, req, id);
    }
  }

  /** A version counts the accepted PATCHes with a configuration; without one the configuration stays. */
  lemma {:induction false} VersionCountsReconfigurations(db: Tables, steps: seq<Step>, id: ScraperId)
    requires id in db.scrapers && AllowedRun(db, steps)
    ensures id in ApplyAll(db, steps).scrapers
    ensures ApplyAll(db, steps).scrapers[id].version == db.scrapers[id].version + Reconfigurations(db, steps, id)
    ensures Reconfigurations(db, steps, id) == 0
            ==> ApplyAll(db, steps).scrapers[id].configuration == db.scrapers[id].configuration
    decreases |steps|
  {
    if steps != [] {
      StepVersions(db, steps[0], id);
      VersionCountsReconfigurations(Apply(db, steps[0]), steps[1..], id);
    }
  }

  /** At any two moments of a run the later version is no lower, and equal versions mean equal
      configurations. */
  lemma VersionIdentifiesConfiguration(db: Tables, steps: seq<Step>, i: nat, j: nat, id: ScraperId)
    requires AllowedRun(db, steps) && i <= j <= |steps| && id in ApplyAll(db, steps[..i]).scrapers
    ensures var before, after := ApplyAll(db, steps[..i]), ApplyAll(db, steps[..j]);
            && id in after.scrapers
            && before.scrapers[id].version <= after.scrapers[id].version
            && (before.scrapers[id].version == after.scrapers[id].version
                ==> before.scrapers[id].configuration == after.scrapers[id].configuration)
  {
    assert steps == steps[..j] + steps[j..];
    RunSplits(db, steps[..j], steps[j..]);
    assert steps[..j] == steps[..i] + steps[i..j];
    RunSplits(db, steps[..i], steps[i..j]);
    VersionCountsReconfigurations(ApplyAll(db, steps[..i]), steps[i..j], id);
  }

  /** From its creation on, a scraper's version is one more than its accepted reconfigurations. */
  lemma VersionSinceCreation(db: Tables, c: Credentials, s: Session, req: Request, steps: seq<Step>)
    requires req.CreateScraper? && AllowedRun(db, [Call(c, s, req)] + steps)
    requires !Handle(db, c, s, req).0.Failed?
    ensures var created := Handle(db, c, s, req).1;
            && AllowedRun(created, steps) && req.newScraper in ApplyAll(created, steps).scrapers
            && ApplyAll(created, steps).scrapers[req.newScraper].version
               == 1 + Reconfigurations(created, steps, req.newScraper)
  {
    var all := [Call(c, s, req)] + steps;
    assert all[0] == Call(c, s, req) && all[1..] == steps;
    VersionCountsReconfigurations(Handle(db, c, s, req).1, steps, req.newScraper);
  }
}
