/** The handlers as they run: each assigns to a working copy step by step and commits it or leaves it to
    be discarded when the session closes. Serve answers and commits exactly as Service.Handle says. */
module UnitOfWork {
  import opened Options
  import opened Lifecycle
  import opened Database
  import opened Dependencies
  import opened Service

  class DatabaseSession {
    var committed: Tables
    var working: Tables

    constructor (committed: Tables)
      ensures this.committed == committed && working == committed
    {
      this.committed, working := committed, committed;
    }

    method Commit()
      modifies this
      ensures committed == old(working) && working == old(working)
    {
      committed := working;
    }

    /** Leaving the `async with` block: whatever was not committed is gone. */
    method Close()
      modifies this
      ensures committed == old(committed) && working == old(committed)
    {
      working := committed;
    }

    // ---------- services ----------

    method RecordAuditEvent(action: Action, user: Option<UserId>, organization: Option<OrganizationId>,
                            resource: Resource, ip: Option<string>, engine: Option<Engine>)
      modifies this`working
      ensures working == Log(old(working), action, user, organization, resource, ip, engine)
    {
      var entry := AuditEntry(action, user, organization, resource, ip, engine);
      working := working.(audit := working.audit + [entry]);
    }

    method AddOrganization(owner: UserId, name: string, slug: string, id: OrganizationId) returns (taken: bool)
      modifies this`working
      ensures taken == exists o :: o in old(working).organizations && old(working).organizations[o].slug == slug
      ensures working == if taken then old(working)
                         else
                           var row := Organization(name, slug, ActiveOrganization);
                           old(working).(organizations := old(working).organizations[id := row],
                                         members := old(working).members + [Member(owner, id, Owner)])
    {
      if exists o :: o in working.organizations && working.organizations[o].slug == slug {
        return true;
      }
      working := working.(organizations := working.organizations[id := Organization(name, slug, ActiveOrganization)]);
      working := working.(members := working.members + [Member(owner, id, Owner)]);
      return false;
    }

    method AddProject(organization: OrganizationId, createdBy: UserId, body: ProjectCreate, id: ProjectId)
      returns (taken: bool)
      modifies this`working
      ensures taken == exists p :: p in old(working).projects
                                   && old(working).projects[p].organization == organization
                                   && old(working).projects[p].slug == body.slug
      ensures working == if taken then old(working)
                         else
                           var row := Project(organization, body.name, body.slug, body.description,
                                              ProjectStatus.Draft, createdBy);
                           old(working).(projects := old(working).projects[id := row])
    {
      if exists p :: p in working.projects && working.projects[p].organization == organization
                     && working.projects[p].slug == body.slug {
        return true;
      }
      var row := Project(organization, body.name, body.slug, body.description, ProjectStatus.Draft, createdBy);
      working := working.(projects := working.projects[id := row]);
      return false;
    }

    method AddScraper(project: ProjectId, createdBy: UserId, body: ScraperCreate, id: ScraperId) returns (taken: bool)
      modifies this`working
      ensures taken == exists s :: s in old(working).scrapers && old(working).scrapers[s].project == project
                                   && old(working).scrapers[s].slug == body.slug
      ensures working == if taken then old(working)
                         else old(working).(scrapers := old(working).scrapers[id :=
                           Scraper(project, body.name, body.slug, body.engine,
                                   if body.configuration.Some? then body.configuration.value
                                   else DefaultConfiguration(body.engine),
                                   body.credentialReference, ScraperStatus.Draft, 1, createdBy)])
    {
      if exists s :: s in working.scrapers && working.scrapers[s].project == project
                     && working.scrapers[s].slug == body.slug {
        return true;
      }
      var configuration := body.configuration;
      if configuration.None? {
        configuration := Some(DefaultConfiguration(body.engine));
      }
      var row := Scraper(project, body.name, body.slug, body.engine, configuration.value, body.credentialReference,
                         ScraperStatus.Draft, 1, createdBy);
      working := working.(scrapers := working.scrapers[id := row]);
      return false;
    }

    method ApplyProjectTransition(id: ProjectId, requested: ProjectStatus) returns (legal: bool)
      requires id in working.projects
      modifies this`working
      ensures legal == (requested in ProjectTransitions(old(working).projects[id].status))
      ensures working == if legal
                         then
                           var row := old(working).projects[id].(status := requested);
                           old(working).(projects := old(working).projects[id := row])
                         else old(working)
    {
      if requested !in ProjectTransitions(working.projects[id].status) {
        return false;
      }
      working := working.(projects := working.projects[id := working.projects[id].(status := requested)]);
      return true;
    }

    method ApplyScraperTransition(id: ScraperId, requested: ScraperStatus) returns (legal: bool)
      requires id in working.scrapers
      modifies this`working
      ensures legal == (requested in ScraperTransitions(old(working).scrapers[id].status))
      ensures working == if legal
                         then
                           var row := old(working).scrapers[id].(status := requested);
                           old(working).(scrapers := old(working).scrapers[id := row])
                         else old(working)
    {
      if requested !in ScraperTransitions(working.scrapers[id].status) {
        return false;
      }
      working := working.(scrapers := working.scrapers[id := working.scrapers[id].(status := requested)]);
      return true;
    }

    method ApplyConfigurationUpdate(id: ScraperId, configuration: Configuration)
      requires id in working.scrapers
      modifies this`working
      ensures var row := old(working).scrapers[id];
              working == old(working).(scrapers := old(working).scrapers[id :=
                row.(configuration := configuration, version := row.version + 1)])
    {
      working := working.(scrapers := working.scrapers[id := working.scrapers[id].(configuration := configuration)]);
      var version := working.scrapers[id].version;
      working := working.(scrapers := working.scrapers[id := working.scrapers[id].(version := version + 1)]);
    }

    // ---------- handlers, once admitted ----------

    method CreateOrganizationEndpoint(ip: Option<string>, user: UserId, name: string, slug: string, id: OrganizationId)
      returns (response: Response)
      requires working == committed
      modifies this
      ensures (response, committed) == DoCreateOrganization(old(committed), ip, user, name, slug, id)
    {
      var taken := AddOrganization(user, name, slug, id);
      if taken {
        return Failed(SlugTaken);
      }
      RecordAuditEvent(OrganizationCreated, Some(user), Some(id), OrganizationResource(id), ip, None);
      Commit();
      return OneOrganization(ShowOrganization(id, working.organizations[id], Owner));
    }

    method CreateProjectEndpoint(ip: Option<string>, user: UserId, organization: OrganizationId, body: ProjectCreate,
                                 id: ProjectId)
      returns (response: Response)
      requires working == committed
      modifies this
      ensures (response, committed) == DoCreateProject(old(committed), ip, user, organization, body, id)
    {
      var taken := AddProject(organization, user, body, id);
      if taken {
        return Failed(SlugTaken);
      }
      RecordAuditEvent(ProjectCreated, Some(user), Some(organization), ProjectResource(id), ip, None);
      Commit();
      return OneProject(ShowProject(id, working.projects[id]));
    }

    method AssignProjectFields(id: ProjectId, patch: ProjectUpdate)
      requires id in working.projects
      modifies this`working
      ensures working == old(working).(projects := old(working).projects[id :=
                PatchProject(old(working).projects[id], patch.(status := None))])
    {
      ghost var before := working.projects;
      if patch.name.Some? {
        working := working.(projects := working.projects[id := working.projects[id].(name := patch.name.value)]);
      }
      assert working.projects == before[id := working.projects[id]];
      if patch.description.Some? {
        var row := working.projects[id].(description := patch.description);
        working := working.(projects := working.projects[id := row]);
      }
      assert working.projects == before[id := working.projects[id]];
    }

    method AssignScraperFields(id: ScraperId, patch: ScraperUpdate)
      requires id in working.scrapers
      modifies this`working
      ensures working == old(working).(scrapers := old(working).scrapers[id :=
                PatchScraper(old(working).scrapers[id], patch.(configuration := None, status := None))])
    {
      ghost var before := working.scrapers;
      if patch.name.Some? {
        working := working.(scrapers := working.scrapers[id := working.scrapers[id].(name := patch.name.value)]);
      }
      assert working.scrapers == before[id := working.scrapers[id]];
      if patch.credentialReference.Some? {
        var row := working.scrapers[id].(credentialReference := patch.credentialReference);
        working := working.(scrapers := working.scrapers[id := row]);
      }
      assert working.scrapers == before[id := working.scrapers[id]];
    }

    method AssignScraper(id: ScraperId, patch: ScraperUpdate) returns (action: Action)
      requires id in working.scrapers
      modifies this`working
      ensures action == ScraperPatchEvent(patch.(status := None))
      ensures working == old(working).(scrapers := old(working).scrapers[id :=
                PatchScraper(old(working).scrapers[id], patch.(status := None))])
    {
      ghost var before := working.scrapers;
      AssignScraperFields(id, patch);
      action := ScraperUpdated;
      if patch.configuration.Some? {
        ApplyConfigurationUpdate(id, patch.configuration.value);
        action := ScraperConfigurationChanged;
      }
      assert working.scrapers == before[id := working.scrapers[id]];
    }

    method AssignTargetFields(id: TargetId, patch: TargetUpdate)
      requires id in working.targets
      modifies this`working
      ensures working == old(working).(targets := old(working).targets[id :=
                PatchTarget(old(working).targets[id], patch.(url := None))])
    {
      ghost var before := working.targets;
      if patch.name.Some? {
        working := working.(targets := working.targets[id := working.targets[id].(name := patch.name)]);
      }
      assert working.targets == before[id := working.targets[id]];
      if patch.enabled.Some? {
        working := working.(targets := working.targets[id := working.targets[id].(enabled := patch.enabled.value)]);
      }
      assert working.targets == before[id := working.targets[id]];
      if patch.priority.Some? {
        working := working.(targets := working.targets[id := working.targets[id].(priority := patch.priority.value)]);
      }
      assert working.targets == before[id := working.targets[id]];
    }

    /** A refused PATCH leaves the name and description assigned in the working copy, and nowhere else. */
    method UpdateProjectEndpoint(ip: Option<string>, id: ProjectId, patch: ProjectUpdate) returns (response: Response)
      requires working == committed && id in committed.projects
      modifies this
      ensures (response, committed) == DoUpdateProject(old(committed), ip, id, patch)
      ensures response.Failed? ==>
                && committed == old(committed)
                && id in working.projects
                && working.projects[id] == PatchProject(committed.projects[id], patch.(status := None))
    {
      AssignProjectFields(id, patch);
      var action := ProjectUpdated;
      if patch.status.Some? {
        var current := working.projects[id].status;
        var legal := ApplyProjectTransition(id, patch.status.value);
        if !legal {
          return Failed(InvalidProjectTransition(current, patch.status.value));
        }
        action := ProjectEventFor(patch.status.value);
      }
      assert working.projects == committed.projects[id := PatchProject(committed.projects[id], patch)];
      RecordAuditEvent(action, None, Some(working.projects[id].organization), ProjectResource(id), ip, None);
      Commit();
      return OneProject(ShowProject(id, working.projects[id]));
    }

    method ArchiveProjectEndpoint(ip: Option<string>, id: ProjectId) returns (response: Response)
      requires working == committed && id in committed.projects
      modifies this
      ensures (response, committed)
              == DoUpdateProject(old(committed), ip, id, ProjectUpdate(None, None, Some(ProjectStatus.Archived)))
    {
      var current := working.projects[id].status;
      var legal := ApplyProjectTransition(id, ProjectStatus.Archived);
      if !legal {
        return Failed(InvalidProjectTransition(current, ProjectStatus.Archived));
      }
      RecordAuditEvent(ProjectArchived, None, Some(working.projects[id].organization), ProjectResource(id), ip, None);
      Commit();
      return OneProject(ShowProject(id, working.projects[id]));
    }

    method CreateScraperEndpoint(ip: Option<string>, user: UserId, project: ProjectId, body: ScraperCreate,
                                 id: ScraperId)
      returns (response: Response)
      requires working == committed && project in committed.projects
      modifies this
      ensures (response, committed) == DoCreateScraper(old(committed), ip, user, project, body, id)
    {
      var taken := AddScraper(project, user, body, id);
      if taken {
        return Failed(SlugTaken);
      }
      RecordAuditEvent(ScraperCreated, None, Some(working.projects[project].organization), ScraperResource(id), ip,
                       Some(working.scrapers[id].engine));
      Commit();
      return OneScraper(ShowScraper(id, working.scrapers[id]));
    }

    /** A refused PATCH leaves name, credential, configuration and the bumped version in the working copy,
        and nowhere else. */
    method UpdateScraperEndpoint(ip: Option<string>, id: ScraperId, patch: ScraperUpdate) returns (response: Response)
      requires working == committed && id in committed.scrapers
      modifies this
      ensures (response, committed) == DoUpdateScraper(old(committed), ip, id, patch)
      ensures response.Failed? ==>
                && committed == old(committed)
                && id in working.scrapers
                && working.scrapers[id] == PatchScraper(committed.scrapers[id], patch.(status := None))
    {
      var action := AssignScraper(id, patch);
      if patch.status.Some? {
        var current := working.scrapers[id].status;
        var legal := ApplyScraperTransition(id, patch.status.value);
        if !legal {
          return Failed(InvalidScraperTransition(current, patch.status.value));
        }
        action := ScraperEventFor(patch.status.value);
      }
      assert working.scrapers == committed.scrapers[id := PatchScraper(committed.scrapers[id], patch)];
      RecordAuditEvent(action, None, None, ScraperResource(id), ip, None);
      Commit();
      return OneScraper(ShowScraper(id, working.scrapers[id]));
    }

    method ArchiveScraperEndpoint(ip: Option<string>, id: ScraperId) returns (response: Response)
      requires working == committed && id in committed.scrapers
      modifies this
      ensures (response, committed)
              == DoUpdateScraper(old(committed), ip, id, ScraperUpdate(None, None, None, Some(ScraperStatus.Archived)))
    {
      var current := working.scrapers[id].status;
      var legal := ApplyScraperTransition(id, ScraperStatus.Archived);
      if !legal {
        return Failed(InvalidScraperTransition(current, ScraperStatus.Archived));
      }
      RecordAuditEvent(ScraperArchived, None, None, ScraperResource(id), ip, None);
      Commit();
      return OneScraper(ShowScraper(id, working.scrapers[id]));
    }

    method CreateTargetEndpoint(ip: Option<string>, scraper: ScraperId, body: TargetCreate, id: TargetId)
      returns (response: Response)
      requires working == committed
      modifies this
      ensures (response, committed) == DoCreateTarget(old(committed), ip, scraper, body, id)
    {
      if !body.url.safe {
        return Failed(UnsafeUrl);
      }
      var row := Target(scraper, body.url.text, body.name, body.enabled, body.priority);
      working := working.(targets := working.targets[id := row]);
      RecordAuditEvent(TargetCreated, None, None, TargetResource(id), ip, None);
      Commit();
      return OneTarget(TargetView(id, working.targets[id]));
    }

    method UpdateTargetEndpoint(ip: Option<string>, id: TargetId, patch: TargetUpdate) returns (response: Response)
      requires working == committed && id in committed.targets
      modifies this
      ensures (response, committed) == DoUpdateTarget(old(committed), ip, id, patch)
    {
      if patch.url.Some? {
        if !patch.url.value.safe {
          return Failed(UnsafeUrl);
        }
        working := working.(targets := working.targets[id := working.targets[id].(url := patch.url.value.text)]);
      }
      AssignTargetFields(id, patch);
      assert working.targets == committed.targets[id := PatchTarget(committed.targets[id], patch)];
      RecordAuditEvent(TargetUpdated, None, None, TargetResource(id), ip, None);
      Commit();
      return OneTarget(TargetView(id, working.targets[id]));
    }

    method DeleteTargetEndpoint(ip: Option<string>, id: TargetId) returns (response: Response)
      requires working == committed
      modifies this
      ensures (response, committed) == DoDeleteTarget(old(committed), ip, id)
    {
      RecordAuditEvent(TargetDeleted, None, None, TargetResource(id), ip, None);
      working := working.(targets := working.targets - {id});
      Commit();
      return NoContent;
    }

    // ---------- a whole request ----------

    method Serve(c: Credentials, s: Session, req: Request) returns (response: Response)
      requires working == committed
      modifies this
      ensures (response, committed) == Handle(old(committed), c, s, req)
      ensures working == committed
    {
      var admitted := Admit(working, c, s, req);
      if admitted.Fail? {
        return Failed(admitted.failure);
      }
      response := Dispatch(c.ipAddress, admitted.value, req);
      Close();
    }

    method Dispatch(ip: Option<string>, user: UserId, req: Request) returns (response: Response)
      requires working == committed && Addressed(committed, req)
      modifies this
      ensures (response, committed) == Perform(old(committed), ip, user, req)
    {
      match req
      case ListOrganizations => return Organizations(OrganizationsOf(working, user));
      case ListProjects(organization) => return Projects(ProjectsOf(working, organization));
      case GetProject(id) => return OneProject(ShowProject(id, working.projects[id]));
      case ListScrapers(project) => return Scrapers(ScrapersOf(working, project));
      case GetScraper(id) => return OneScraper(ShowScraper(id, working.scrapers[id]));
      case ListTargets(scraper) => return Targets(TargetsOf(working, scraper));
      case CreateOrganization(name, slug, id) => response := CreateOrganizationEndpoint(ip, user, name, slug, id);
      case CreateProject(organization, body, id) => response := CreateProjectEndpoint(ip, user, organization, body, id);
      case UpdateProject(id, patch) => response := UpdateProjectEndpoint(ip, id, patch);
      case ArchiveProject(id) => response := ArchiveProjectEndpoint(ip, id);
      case CreateScraper(project, body, id) => response := CreateScraperEndpoint(ip, user, project, body, id);
      case UpdateScraper(id, patch) => response := UpdateScraperEndpoint(ip, id, patch);
      case ArchiveScraper(id) => response := ArchiveScraperEndpoint(ip, id);
      case CreateTarget(scraper, body, id) => response := CreateTargetEndpoint(ip, scraper, body, id);
      case UpdateTarget(id, patch) => response := UpdateTargetEndpoint(ip, id, patch);
      case DeleteTarget(id) => response := DeleteTargetEndpoint(ip, id);
    }
  }
}
