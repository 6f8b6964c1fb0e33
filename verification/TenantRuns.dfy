/** Tenant isolation over whole runs: the requests of users who share no organisation with a user, and
    those made without a session, can be erased from any run, colleagues' requests and all, without that
    user being able to tell. */
module TenantRuns {
  import opened Options
  import opened Lifecycle
  import opened Database
  import opened Dependencies
  import opened Service
  import opened ServiceRuns
  import opened TenantIsolation

  ghost predicate Strangers(db: Tables, user: UserId, other: UserId) {
    user != other && forall o :: db.IsMember(user, o) ==> !db.IsMember(other, o)
  }

  lemma ProjectWriteUnseen(user: UserId, db: Tables, id: ProjectId, row: Project, log: seq<AuditEntry>)
    requires ForeignKeys(db) && !db.IsMember(user, row.organization)
    requires id in db.projects ==> row.organization == db.projects[id].organization
    ensures Agree(user, db, db.(projects := db.projects[id := row], audit := log))
  {
    var next := db.(projects := db.projects[id := row], audit := log);
    forall p ensures SeenProject(db, user, p) == SeenProject(next, user, p) {
      ProjectWriteShows(user, db, id, row, log, p, 0, 0);
    }
    forall s ensures SeenScraper(db, user, s) == SeenScraper(next, user, s) {
      ProjectWriteShows(user, db, id, row, log, 0, s, 0);
    }
    forall t ensures SeenTarget(db, user, t) == SeenTarget(next, user, t) {
      ProjectWriteShows(user, db, id, row, log, 0, 0, t);
    }
  }

  lemma ScraperWriteUnseen(user: UserId, db: Tables, id: ScraperId, row: Scraper, log: seq<AuditEntry>)
    requires ForeignKeys(db) && !db.BelongsTo(db.OwnerOfProject(row.project), user)
    requires id in db.scrapers ==> row.project == db.scrapers[id].project
    ensures Agree(user, db, db.(scrapers := db.scrapers[id := row], audit := log))
  {
    var next := db.(scrapers := db.scrapers[id := row], audit := log);
    forall s ensures SeenScraper(db, user, s) == SeenScraper(next, user, s) {
      ScraperWriteShows(user, db, id, row, log, s, 0);
    }
    forall t ensures SeenTarget(db, user, t) == SeenTarget(next, user, t) {
      ScraperWriteShows(user, db, id, row, log, 0, t);
    }
  }

  lemma TargetWriteUnseen(user: UserId, db: Tables, id: TargetId, row: Option<Target>, log: seq<AuditEntry>)
    requires SeenTarget(db, user, id).None?
    requires row.Some? ==> !db.BelongsTo(db.OwnerOfScraper(row.value.scraper), user)
    ensures Agree(user, db, WriteTarget(db, id, row, log))
  {
    var next := WriteTarget(db, id, row, log);
    forall t ensures SeenTarget(db, user, t) == SeenTarget(next, user, t) {
    }
  }

  lemma CreateOrganizationUnseen(user: UserId, other: UserId, db: Tables, ip: Option<string>, name: string,
                                 slug: string, id: OrganizationId)
    requires ForeignKeys(db) && id !in db.organizations && user != other
    ensures Agree(user, db, DoCreateOrganization(db, ip, other, name, slug, id).1)
  {
    var next := DoCreateOrganization(db, ip, other, name, slug, id).1;
    assert !db.IsMember(user, id);
    forall o ensures GetMembership(db, user, o) == GetMembership(next, user, o)
             ensures db.IsMember(user, o) == next.IsMember(user, o) {
      FindRoleAfter(db.members, Member(other, id, Owner), user, o);
    }
    OwnershipDecidesSight(user, db, next);
  }

  /** With the same three row tables, sight depends on the user's memberships only. */
  lemma OwnershipDecidesSight(user: UserId, db: Tables, next: Tables)
    requires next.projects == db.projects && next.scrapers == db.scrapers && next.targets == db.targets
    requires forall o :: db.IsMember(user, o) == next.IsMember(user, o)
    ensures forall p :: SeenProject(db, user, p) == SeenProject(next, user, p)
    ensures forall s :: SeenScraper(db, user, s) == SeenScraper(next, user, s)
    ensures forall t :: SeenTarget(db, user, t) == SeenTarget(next, user, t)
  {
    forall p ensures SeenProject(db, user, p) == SeenProject(next, user, p) {
      assert next.OwnerOfProject(p) == db.OwnerOfProject(p);
    }
    forall s ensures SeenScraper(db, user, s) == SeenScraper(next, user, s) {
      assert next.OwnerOfScraper(s) == db.OwnerOfScraper(s);
    }
    forall t ensures SeenTarget(db, user, t) == SeenTarget(next, user, t) {
      assert next.OwnerOfTarget(t) == db.OwnerOfTarget(t);
    }
  }

  lemma ProjectRequestUnseen(user: UserId, db: Tables, ip: Option<string>, caller: UserId, req: Request)
    requires ForeignKeys(db) && FreshId(db, req) && Addressed(db, req)
    requires req.CreateProject? || req.UpdateProject? || req.ArchiveProject?
    requires !db.BelongsTo(OwnerAddressed(db, req), user)
    ensures Agree(user, db, Perform(db, ip, caller, req).1)
  {
    var (response, next) := Perform(db, ip, caller, req);
    if !response.Failed? {
      var id := if req.CreateProject? then req.newProject else req.project;
      ProjectWriteUnseen(user, db, id, next.projects[id], next.audit);
    }
  }

  lemma ScraperRequestUnseen(user: UserId, db: Tables, ip: Option<string>, caller: UserId, req: Request)
    requires ForeignKeys(db) && FreshId(db, req) && Addressed(db, req)
    requires req.CreateScraper? || req.UpdateScraper? || req.ArchiveScraper?
    requires !db.BelongsTo(OwnerAddressed(db, req), user)
    ensures Agree(user, db, Perform(db, ip, caller, req).1)
  {
    var (response, next) := Perform(db, ip, caller, req);
    if !response.Failed? {
      var id := if req.CreateScraper? then req.newScraper else req.scraper;
      ScraperWriteUnseen(user, db, id, next.scrapers[id], next.audit);
    }
  }

  lemma TargetRequestUnseen(user: UserId, db: Tables, ip: Option<string>, caller: UserId, req: Request)
    requires FreshId(db, req) && Addressed(db, req)
    requires req.CreateTarget? || req.UpdateTarget? || req.DeleteTarget?
    requires !db.BelongsTo(OwnerAddressed(db, req), user)
    ensures Agree(user, db, Perform(db, ip, caller, req).1)
  {
    var (response, next) := Perform(db, ip, caller, req);
    if !response.Failed? {
      var id := if req.CreateTarget? then req.newTarget else req.target;
      var row := if req.DeleteTarget? then None else Some(next.targets[id]);
      TargetWriteUnseen(user, db, id, row, next.audit);
      assert next == WriteTarget(db, id, row, next.audit);
    }
  }

  /** A request by somebody else about an organisation the user is no member of. */
  lemma PerformIsInvisible(user: UserId, db: Tables, ip: Option<string>, caller: UserId, req: Request)
    requires ForeignKeys(db) && FreshId(db, req) && Addressed(db, req) && user != caller
    requires ReadsOnly(req) || (NamesOrganization(req) ==> !db.BelongsTo(OwnerAddressed(db, req), user))
    ensures Agree(user, db, Perform(db, ip, caller, req).1)
  {
    if ReadsOnly(req) {
      assert Perform(db, ip, caller, req).1 == db;
    } else if req.CreateOrganization? {
      CreateOrganizationUnseen(user, caller, db, ip, req.name, req.slug, req.newOrganization);
    } else if req.CreateProject? || req.UpdateProject? || req.ArchiveProject? {
      ProjectRequestUnseen(user, db, ip, caller, req);
    } else if req.CreateScraper? || req.UpdateScraper? || req.ArchiveScraper? {
      ScraperRequestUnseen(user, db, ip, caller, req);
    } else {
      TargetRequestUnseen(user, db, ip, caller, req);
    }
  }

  lemma ElsewhereIsInvisible(user: UserId, db: Tables, c: Credentials, s: Session, req: Request)
    requires ForeignKeys(db) && FreshId(db, req) && s.user != Some(user)
    requires ReadsOnly(req) || (NamesOrganization(req) ==> !db.BelongsTo(OwnerAddressed(db, req), user))
    ensures Agree(user, db, Handle(db, c, s, req).1)
  {
    var admitted := Admit(db, c, s, req);
    if admitted.Ok? {
      PerformIsInvisible(user, db, c.ipAddress, admitted.value, req);
    }
  }

  /** Integrity towards other tenants: a request changes nothing in an organisation of a user who shares
      none with the caller. */
  lemma StrangerIsInvisible(user: UserId, db: Tables, c: Credentials, s: Session, req: Request)
    requires ForeignKeys(db) && FreshId(db, req)
    requires s.user.Some? ==> Strangers(db, user, s.user.value)
    ensures Agree(user, db, Handle(db, c, s, req).1)
  {
    if Admit(db, c, s, req).Ok? {
      AdmittedOwns(db, c, s, req);
      ElsewhereIsInvisible(user, db, c, s, req);
    }
  }

  // ---------- colleagues ----------

  /** The two states agree on the user's organisations, on who else belongs to them, and on all accounts. */
  ghost predicate SameTenants(user: UserId, d1: Tables, d2: Tables) {
    && Agree(user, d1, d2) && d1.users == d2.users
    && forall o, v :: d1.IsMember(user, o) ==> GetMembership(d1, v, o) == GetMembership(d2, v, o)
  }

  lemma MembersAfter(db: Tables, c: Credentials, s: Session, req: Request)
    ensures var next := Handle(db, c, s, req).1;
            next.members == db.members
            || (req.CreateOrganization? && s.user.Some?
                && next.members == db.members + [Member(s.user.value, req.newOrganization, Owner)])
  {
  }

  /** No request but the user's own creation of an organisation changes who belongs to the user's
      organisations. */
  lemma TenantsStay(user: UserId, db: Tables, c: Credentials, s: Session, req: Request)
    requires ForeignKeys(db) && FreshId(db, req) && (s.user == Some(user) ==> !req.CreateOrganization?)
    ensures var next := Handle(db, c, s, req).1;
            && (forall o :: next.IsMember(user, o) == db.IsMember(user, o))
            && (forall o, v :: db.IsMember(user, o) ==> GetMembership(next, v, o) == GetMembership(db, v, o))
  {
    var next := Handle(db, c, s, req).1;
    MembersAfter(db, c, s, req);
    if next.members != db.members {
      var row := Member(s.user.value, req.newOrganization, Owner);
      assert !db.IsMember(user, req.newOrganization);
      forall o, v ensures GetMembership(next, v, o)
                          == if GetMembership(db, v, o).Some? then GetMembership(db, v, o)
                             else if v == row.user && o == row.organization then Some(Owner) else None {
        FindRoleAfter(db.members, row, v, o);
      }
    }
    forall o ensures next.IsMember(user, o) == db.IsMember(user, o) {
      assert GetMembership(next, user, o).Some? == GetMembership(db, user, o).Some?;
    }
  }

  /** Two steps that keep the tenants in place and leave the states agreeing. */
  lemma SameTenantsAfter(user: UserId, d1: Tables, d2: Tables, e1: Tables, e2: Tables)
    requires SameTenants(user, d1, d2) && Agree(user, e1, e2) && e1.users == e2.users
    requires forall o :: e1.IsMember(user, o) == d1.IsMember(user, o)
    requires forall o, v :: d1.IsMember(user, o) ==> GetMembership(e1, v, o) == GetMembership(d1, v, o)
    requires forall o, v :: d2.IsMember(user, o) ==> GetMembership(e2, v, o) == GetMembership(d2, v, o)
    ensures SameTenants(user, e1, e2)
  {
    forall o, v | e1.IsMember(user, o) ensures GetMembership(e1, v, o) == GetMembership(e2, v, o) {
      assert GetMembership(d1, user, o) == GetMembership(d2, user, o);
      assert GetMembership(d1, v, o) == GetMembership(d2, v, o);
    }
  }

  lemma AgreeIsTransitive(user: UserId, d1: Tables, d2: Tables, d3: Tables)
    requires Agree(user, d1, d2) && Agree(user, d1, d3)
    ensures Agree(user, d2, d3)
  {
    forall o ensures GetMembership(d2, user, o) == GetMembership(d3, user, o) {
      assert GetMembership(d1, user, o) == GetMembership(d2, user, o);
    }
    forall o ensures SeenOrganization(d2, user, o) == SeenOrganization(d3, user, o) {
      assert SeenOrganization(d1, user, o) == SeenOrganization(d2, user, o);
    }
    forall p ensures SeenProject(d2, user, p) == SeenProject(d3, user, p) {
      assert SeenProject(d1, user, p) == SeenProject(d2, user, p);
    }
    forall s ensures SeenScraper(d2, user, s) == SeenScraper(d3, user, s) {
      assert SeenScraper(d1, user, s) == SeenScraper(d2, user, s);
    }
    forall t ensures SeenTarget(d2, user, t) == SeenTarget(d3, user, t) {
      assert SeenTarget(d1, user, t) == SeenTarget(d2, user, t);
    }
  }

  /** Anybody's request about one of the user's organisations passes its checks in both states or fails
      them alike. */
  lemma ColleagueAdmissionAgrees(user: UserId, d1: Tables, d2: Tables, c: Credentials, s: Session, req: Request)
    requires SameTenants(user, d1, d2) && NamesOrganization(req) && s.user.Some?
    requires d1.BelongsTo(OwnerAddressed(d1, req), user)
    ensures Admit(d1, c, s, req) == Admit(d2, c, s, req)
  {
    OwnersAddressedAgree(user, d1, d2, req);
    var owner := OwnerAddressed(d1, req).value;
    assert GetMembership(d1, s.user.value, owner) == GetMembership(d2, s.user.value, owner);
    assert GetCurrentUser(d1, c, s) == GetCurrentUser(d2, c, s);
    forall f ensures RequireOwner(d1, s.user.value, Some(owner), f) == RequireOwner(d2, s.user.value, Some(owner), f) {
    }
  }

  /** Somebody else's request leaves the states agreeing, whatever organisation it is about. */
  lemma ColleagueAgrees(user: UserId, d1: Tables, d2: Tables, c: Credentials, s: Session, req: Request)
    requires ForeignKeys(d1) && ForeignKeys(d2) && FreshId(d1, req) && FreshId(d2, req)
    requires SameTenants(user, d1, d2) && s.user.Some? && s.user != Some(user)
    ensures Agree(user, Handle(d1, c, s, req).1, Handle(d2, c, s, req).1)
  {
    if NamesOrganization(req) {
      OwnersAddressedAgree(user, d1, d2, req);
    }
    if !ReadsOnly(req) && NamesOrganization(req) && d1.BelongsTo(OwnerAddressed(d1, req), user) {
      ColleagueAdmissionAgrees(user, d1, d2, c, s, req);
      if Admit(d1, c, s, req).Ok? {
        WriteAgrees(user, d1, d2, c.ipAddress, Admit(d1, c, s, req).value, req);
      }
    } else {
      var e1, e2 := Handle(d1, c, s, req).1, Handle(d2, c, s, req).1;
      ElsewhereIsInvisible(user, d1, c, s, req);
      ElsewhereIsInvisible(user, d2, c, s, req);
      AgreeIsTransitive(user, d1, d2, e1);
      AgreeIsTransitive(user, d2, e1, e2);
    }
  }

  // ---------- members added ----------

  /** The same row added to the members of both states. */
  lemma RowAddedAlike(user: UserId, d1: Tables, d2: Tables, e1: Tables, e2: Tables, row: Member)
    requires SameTenants(user, d1, d2) && Agree(user, e1, e2) && e1.users == e2.users
    requires e1.members == d1.members + [row] && e2.members == d2.members + [row]
    requires forall v :: GetMembership(d1, v, row.organization) == GetMembership(d2, v, row.organization)
    ensures SameTenants(user, e1, e2)
  {
    forall o, v | e1.IsMember(user, o) ensures GetMembership(e1, v, o) == GetMembership(e2, v, o) {
      FindRoleAfter(d1.members, row, user, o);
      assert GetMembership(d1, v, o) == GetMembership(d2, v, o) by {
        if o == row.organization {
          assert GetMembership(d1, v, row.organization) == GetMembership(d2, v, row.organization);
        } else {
          assert d1.IsMember(user, o);
        }
      }
      FindRoleAfter(d1.members, row, v, o);
      FindRoleAfter(d2.members, row, v, o);
    }
  }

  /** Adding somebody else to any organisation changes nothing the user sees. */
  lemma EnrolUnseen(user: UserId, db: Tables, row: Member)
    requires row.user != user
    ensures Agree(user, db, Apply(db, Enrol(row)))
  {
    var next := Apply(db, Enrol(row));
    forall o ensures GetMembership(db, user, o) == GetMembership(next, user, o)
             ensures db.IsMember(user, o) == next.IsMember(user, o) {
      FindRoleAfter(db.members, row, user, o);
    }
    OwnershipDecidesSight(user, db, next);
  }

  /** The two states agree on everything in this organisation and on its members. */
  ghost predicate SameOrganization(d1: Tables, d2: Tables, o: OrganizationId) {
    && (forall v :: GetMembership(d1, v, o) == GetMembership(d2, v, o))
    && (o in d1.organizations <==> o in d2.organizations)
    && (o in d1.organizations ==> d1.organizations[o] == d2.organizations[o])
    && (forall p :: RowOf(d1, o, ProjectResource(p)) == RowOf(d2, o, ProjectResource(p)))
    && (forall s :: RowOf(d1, o, ScraperResource(s)) == RowOf(d2, o, ScraperResource(s)))
    && (forall t :: RowOf(d1, o, TargetResource(t)) == RowOf(d2, o, TargetResource(t)))
  }

  datatype Row = ProjectRow(project: Project) | ScraperRow(scraper: Scraper) | TargetRow(target: Target)

  /** The row, if it belongs to this organisation. */
  function RowOf(db: Tables, o: OrganizationId, resource: Resource): Option<Row> {
    match resource
    case ProjectResource(p) =>
      if db.OwnerOfProject(p) == Some(o) then Some(ProjectRow(db.projects[p])) else None
    case ScraperResource(s) =>
      if db.OwnerOfScraper(s) == Some(o) then Some(ScraperRow(db.scrapers[s])) else None
    case TargetResource(t) =>
      if db.OwnerOfTarget(t) == Some(o) then Some(TargetRow(db.targets[t])) else None
    case _ => None
  }

  /** The user joins an organisation that is the same in both states. */
  lemma JoinAgrees(user: UserId, d1: Tables, d2: Tables, row: Member)
    requires Agree(user, d1, d2) && row.user == user && SameOrganization(d1, d2, row.organization)
    ensures Agree(user, Apply(d1, Enrol(row)), Apply(d2, Enrol(row)))
  {
    var e1, e2 := Apply(d1, Enrol(row)), Apply(d2, Enrol(row));
    forall o ensures GetMembership(e1, user, o) == GetMembership(e2, user, o)
             ensures e1.IsMember(user, o) == (d1.IsMember(user, o) || o == row.organization)
             ensures e2.IsMember(user, o) == (d2.IsMember(user, o) || o == row.organization) {
      assert GetMembership(d1, user, o) == GetMembership(d2, user, o);
      FindRoleAfter(d1.members, row, user, o);
      FindRoleAfter(d2.members, row, user, o);
    }
    forall o ensures SeenOrganization(e1, user, o) == SeenOrganization(e2, user, o) {
      assert SeenOrganization(d1, user, o) == SeenOrganization(d2, user, o);
    }
    forall p ensures SeenProject(e1, user, p) == SeenProject(e2, user, p) {
      assert SeenProject(d1, user, p) == SeenProject(d2, user, p);
      assert RowOf(d1, row.organization, ProjectResource(p)) == RowOf(d2, row.organization, ProjectResource(p));
    }
    forall s ensures SeenScraper(e1, user, s) == SeenScraper(e2, user, s) {
      assert SeenScraper(d1, user, s) == SeenScraper(d2, user, s);
      assert RowOf(d1, row.organization, ScraperResource(s)) == RowOf(d2, row.organization, ScraperResource(s));
    }
    forall t ensures SeenTarget(e1, user, t) == SeenTarget(e2, user, t) {
      assert SeenTarget(d1, user, t) == SeenTarget(d2, user, t);
      assert RowOf(d1, row.organization, TargetResource(t)) == RowOf(d2, row.organization, TargetResource(t));
    }
  }

  /** And only then: two states that agree after the user has joined agreed on that organisation. */
  lemma JoinedWasSame(user: UserId, d1: Tables, d2: Tables, row: Member)
    requires SameTenants(user, d1, d2) && row.user == user && Allowed(d1, Enrol(row)) && Allowed(d2, Enrol(row))
    requires SameTenants(user, Apply(d1, Enrol(row)), Apply(d2, Enrol(row)))
    ensures SameOrganization(d1, d2, row.organization)
  {
    var e1, e2, o := Apply(d1, Enrol(row)), Apply(d2, Enrol(row)), row.organization;
    FindRoleAfter(d1.members, row, user, o);
    FindRoleAfter(d2.members, row, user, o);
    forall v ensures GetMembership(d1, v, o) == GetMembership(d2, v, o) {
      assert GetMembership(e1, v, o) == GetMembership(e2, v, o);
      FindRoleAfter(d1.members, row, v, o);
      FindRoleAfter(d2.members, row, v, o);
    }
    assert SeenOrganization(e1, user, o) == SeenOrganization(e2, user, o);
    forall p ensures RowOf(d1, o, ProjectResource(p)) == RowOf(d2, o, ProjectResource(p)) {
      ProjectOwnersAgree(user, e1, e2, p);
    }
    forall s ensures RowOf(d1, o, ScraperResource(s)) == RowOf(d2, o, ScraperResource(s)) {
      ScraperOwnersAgree(user, e1, e2, s);
    }
    forall t ensures RowOf(d1, o, TargetResource(t)) == RowOf(d2, o, TargetResource(t)) {
      TargetOwnersAgree(user, e1, e2, t);
    }
  }

  /** Joining an organisation keeps the states the same for the user exactly when it is the same in both. */
  lemma JoiningExactly(user: UserId, d1: Tables, d2: Tables, row: Member)
    requires SameTenants(user, d1, d2) && row.user == user && Allowed(d1, Enrol(row)) && Allowed(d2, Enrol(row))
    ensures SameTenants(user, Apply(d1, Enrol(row)), Apply(d2, Enrol(row)))
            <==> SameOrganization(d1, d2, row.organization)
  {
    if SameOrganization(d1, d2, row.organization) {
      JoinAgrees(user, d1, d2, row);
      RowAddedAlike(user, d1, d2, Apply(d1, Enrol(row)), Apply(d2, Enrol(row)), row);
    } else if SameTenants(user, Apply(d1, Enrol(row)), Apply(d2, Enrol(row))) {
      JoinedWasSame(user, d1, d2, row);
    }
  }

  // ---------- one step of a run ----------

  predicate Own(step: Step, user: UserId) {
    step.Call? && step.s.user == Some(user)
  }

  /** A request made without a session, or by a user who shares no organisation with `user`; or somebody
      else added to an organisation `user` is no member of. */
  ghost predicate Outside(db: Tables, user: UserId, step: Step) {
    match step
    case Call(_, s, _) => s.user.Some? ==> Strangers(db, user, s.user.value)
    case PutUser(_, _) => false
    case Enrol(row) => row.user != user && !db.IsMember(user, row.organization)
  }

  lemma OutsideStep(user: UserId, d1: Tables, d2: Tables, step: Step)
    requires ForeignKeys(d1) && Allowed(d1, step) && SameTenants(user, d1, d2) && Outside(d1, user, step)
    ensures SameTenants(user, Apply(d1, step), d2)
  {
    var next := Apply(d1, step);
    match step {
      case Call(c, s, req) =>
        StrangerIsInvisible(user, d1, c, s, req);
        TenantsStay(user, d1, c, s, req);
        UsersStay(d1, c, s, req);
      case Enrol(row) =>
        EnrolUnseen(user, d1, row);
        forall o ensures next.IsMember(user, o) == d1.IsMember(user, o) {
          FindRoleAfter(d1.members, row, user, o);
        }
        forall o, v | d1.IsMember(user, o) ensures GetMembership(next, v, o) == GetMembership(d1, v, o) {
          FindRoleAfter(d1.members, row, v, o);
        }
    }
    AgreeIsTransitive(user, d1, next, d2);
    SameTenantsAfter(user, d1, d2, next, d2);
  }

  lemma KeptCall(user: UserId, d1: Tables, d2: Tables, c: Credentials, s: Session, req: Request)
    requires Integrity(d1) && Integrity(d2) && FreshId(d1, req) && FreshId(d2, req) && SameTenants(user, d1, d2)
    requires s.user.Some? && (s.user == Some(user) ==> !req.CreateOrganization?)
    ensures SameTenants(user, Handle(d1, c, s, req).1, Handle(d2, c, s, req).1)
  {
    if s.user == Some(user) {
      Noninterference(user, d1, d2, c, s, req);
    } else {
      ColleagueAgrees(user, d1, d2, c, s, req);
    }
    TenantsStay(user, d1, c, s, req);
    TenantsStay(user, d2, c, s, req);
    UsersStay(d1, c, s, req);
    UsersStay(d2, c, s, req);
    SameTenantsAfter(user, d1, d2, Handle(d1, c, s, req).1, Handle(d2, c, s, req).1);
  }

  /** The user creates an organisation under a slug that is taken in both states or in neither. */
  lemma KeptCreation(user: UserId, d1: Tables, d2: Tables, c: Credentials, s: Session, req: Request)
    requires Integrity(d1) && Integrity(d2) && FreshId(d1, req) && FreshId(d2, req) && SameTenants(user, d1, d2)
    requires s.user == Some(user) && req.CreateOrganization? && SlugAgrees(d1, d2, c, s, req)
    ensures SameTenants(user, Handle(d1, c, s, req).1, Handle(d2, c, s, req).1)
  {
    var e1, e2 := Handle(d1, c, s, req).1, Handle(d2, c, s, req).1;
    Noninterference(user, d1, d2, c, s, req);
    AdmissionAgrees(user, d1, d2, c, s, req);
    if Admit(d1, c, s, req).Ok? && !SlugInUse(d1, req.slug) {
      forall v ensures GetMembership(d1, v, req.newOrganization) == GetMembership(d2, v, req.newOrganization) {
        assert FindRole(d1.members, v, req.newOrganization).None? && FindRole(d2.members, v, req.newOrganization).None?;
      }
      RowAddedAlike(user, d1, d2, e1, e2, Member(user, req.newOrganization, Owner));
    }
  }

  lemma KeptEnrolment(user: UserId, d1: Tables, d2: Tables, row: Member)
    requires SameTenants(user, d1, d2) && row.user != user && d1.IsMember(user, row.organization)
    ensures SameTenants(user, Apply(d1, Enrol(row)), Apply(d2, Enrol(row)))
  {
    var e1, e2 := Apply(d1, Enrol(row)), Apply(d2, Enrol(row));
    EnrolUnseen(user, d1, row);
    EnrolUnseen(user, d2, row);
    AgreeIsTransitive(user, d1, d2, e1);
    AgreeIsTransitive(user, d2, e1, e2);
    RowAddedAlike(user, d1, d2, e1, e2, row);
  }

  lemma KeptAccount(user: UserId, d1: Tables, d2: Tables, id: UserId, account: User)
    requires SameTenants(user, d1, d2)
    ensures SameTenants(user, Apply(d1, PutUser(id, account)), Apply(d2, PutUser(id, account)))
  {
    var e1, e2 := Apply(d1, PutUser(id, account)), Apply(d2, PutUser(id, account));
    forall o ensures GetMembership(e1, user, o) == GetMembership(e2, user, o)
             ensures SeenOrganization(e1, user, o) == SeenOrganization(e2, user, o) {
      assert GetMembership(d1, user, o) == GetMembership(d2, user, o);
      assert SeenOrganization(d1, user, o) == SeenOrganization(d2, user, o);
    }
    OwnershipDecidesSight(user, d1, e1);
    OwnershipDecidesSight(user, d2, e2);
    forall o, v | e1.IsMember(user, o) ensures GetMembership(e1, v, o) == GetMembership(e2, v, o) {
      assert d1.IsMember(user, o) && GetMembership(d1, v, o) == GetMembership(d2, v, o);
    }
  }

  /** Where the user joins an organisation, it is the same in both states. */
  ghost predicate JoinsAlike(d1: Tables, d2: Tables, user: UserId, step: Step) {
    step.Enrol? && step.row.user == user ==> SameOrganization(d1, d2, step.row.organization)
  }

  /** Where the user creates an organisation, the slug is taken in both states or in neither. */
  predicate CreatesAlike(d1: Tables, d2: Tables, user: UserId, step: Step) {
    Own(step, user) ==> SlugAgrees(d1, d2, step.c, step.s, step.req)
  }

  lemma KeptStep(user: UserId, d1: Tables, d2: Tables, step: Step)
    requires Integrity(d1) && Integrity(d2) && Allowed(d1, step) && Allowed(d2, step) && SameTenants(user, d1, d2)
    requires !Outside(d1, user, step) && JoinsAlike(d1, d2, user, step) && CreatesAlike(d1, d2, user, step)
    ensures SameTenants(user, Apply(d1, step), Apply(d2, step))
  {
    match step
    case Call(c, s, req) =>
      if s.user == Some(user) && req.CreateOrganization? {
        KeptCreation(user, d1, d2, c, s, req);
      } else {
        KeptCall(user, d1, d2, c, s, req);
      }
    case PutUser(id, account) => KeptAccount(user, d1, d2, id, account);
    case Enrol(row) =>
      if row.user == user {
        JoiningExactly(user, d1, d2, row);
      } else {
        KeptEnrolment(user, d1, d2, row);
      }
  }

  // ---------- runs ----------

  /** The responses the user's own requests get in a run. */
  function OwnResponses(db: Tables, steps: seq<Step>, user: UserId): seq<Response>
    decreases |steps|
  {
    if steps == [] then []
    else
      (if Own(steps[0], user) then [Handle(db, steps[0].c, steps[0].s, steps[0].req).0] else [])
      + OwnResponses(Apply(db, steps[0]), steps[1..], user)
  }

  /** The run with exactly the outside steps erased, each judged in the state it is taken in. */
  ghost function WithoutStrangers(db: Tables, user: UserId, steps: seq<Step>): seq<Step>
    decreases |steps|
  {
    if steps == [] then []
    else
      (if Outside(db, user, steps[0]) then [] else [steps[0]])
      + WithoutStrangers(Apply(db, steps[0]), user, steps[1..])
  }

  /** The two runs, side by side, satisfy JoinsAlike at every kept step. */
  ghost predicate JoinsAllAlike(d1: Tables, d2: Tables, user: UserId, steps: seq<Step>)
    decreases |steps|
  {
    steps != [] ==>
      if Outside(d1, user, steps[0]) then JoinsAllAlike(Apply(d1, steps[0]), d2, user, steps[1..])
      else
        && JoinsAlike(d1, d2, user, steps[0])
        && JoinsAllAlike(Apply(d1, steps[0]), Apply(d2, steps[0]), user, steps[1..])
  }

  /** They satisfy CreatesAlike at every kept step. */
  ghost predicate CreatesAllAlike(d1: Tables, d2: Tables, user: UserId, steps: seq<Step>)
    decreases |steps|
  {
    steps != [] ==>
      if Outside(d1, user, steps[0]) then CreatesAllAlike(Apply(d1, steps[0]), d2, user, steps[1..])
      else
        && CreatesAlike(d1, d2, user, steps[0])
        && CreatesAllAlike(Apply(d1, steps[0]), Apply(d2, steps[0]), user, steps[1..])
  }

  lemma OwnStepAnswers(user: UserId, d1: Tables, d2: Tables, step: Step)
    requires Integrity(d1) && Integrity(d2) && Allowed(d1, step) && Allowed(d2, step) && SameTenants(user, d1, d2)
    requires Own(step, user)
    ensures Handle(d1, step.c, step.s, step.req).0 == Handle(d2, step.c, step.s, step.req).0
            <==> CreatesAlike(d1, d2, user, step)
  {
    Noninterference(user, d1, d2, step.c, step.s, step.req);
    AdmissionAgrees(user, d1, d2, step.c, step.s, step.req);
  }

  /** How the run and its erasure begin when the first step is erased. */
  lemma ErasedHead(user: UserId, d1: Tables, d2: Tables, steps: seq<Step>)
    requires steps != [] && Outside(d1, user, steps[0])
    ensures var next, rest := Apply(d1, steps[0]), steps[1..];
            && WithoutStrangers(d1, user, steps) == WithoutStrangers(next, user, rest)
            && OwnResponses(d1, steps, user) == OwnResponses(next, rest, user)
            && ApplyAll(d1, steps) == ApplyAll(next, rest)
            && (CreatesAllAlike(d1, d2, user, steps) <==> CreatesAllAlike(next, d2, user, rest))
  {
  }

  /** And when it is kept. */
  lemma KeptHead(user: UserId, d1: Tables, d2: Tables, steps: seq<Step>)
    requires steps != [] && !Outside(d1, user, steps[0])
    ensures WithoutStrangers(d1, user, steps)
            == [steps[0]] + WithoutStrangers(Apply(d1, steps[0]), user, steps[1..])
    ensures CreatesAllAlike(d1, d2, user, steps)
            <==> CreatesAlike(d1, d2, user, steps[0])
                 && CreatesAllAlike(Apply(d1, steps[0]), Apply(d2, steps[0]), user, steps[1..])
  {
  }

  /** The user's responses in two runs that begin with the same step. */
  lemma ResponsesSplit(user: UserId, d1: Tables, d2: Tables, step: Step, rest1: seq<Step>, rest2: seq<Step>)
    ensures OwnResponses(d1, [step] + rest1, user) == OwnResponses(d2, [step] + rest2, user)
            <==> (Own(step, user) ==> Handle(d1, step.c, step.s, step.req).0 == Handle(d2, step.c, step.s, step.req).0)
                 && OwnResponses(Apply(d1, step), rest1, user) == OwnResponses(Apply(d2, step), rest2, user)
  {
    var t1, t2 := OwnResponses(Apply(d1, step), rest1, user), OwnResponses(Apply(d2, step), rest2, user);
    assert ([step] + rest1)[1..] == rest1 && ([step] + rest2)[1..] == rest2;
    if Own(step, user) {
      var r1, r2 := Handle(d1, step.c, step.s, step.req).0, Handle(d2, step.c, step.s, step.req).0;
      assert ([r1] + t1)[0] == r1 && ([r1] + t1)[1..] == t1 && ([r2] + t2)[0] == r2 && ([r2] + t2)[1..] == t2;
    } else {
      assert OwnResponses(d1, [step] + rest1, user) == t1 && OwnResponses(d2, [step] + rest2, user) == t2;
    }
  }

  /** Erasing from a run every request made without a session or by a stranger, and every enrolment
      elsewhere, and keeping everyone else's steps, changes no response the user gets in the run, and leaves
      the user's organisations the same at its end; if and only if each slug the user gives a new
      organisation is taken in both runs or in neither. An organisation the user joins on the way must be
      the same in both when the user joins. */
  lemma {:induction false} StrangersLeaveNoTrace(user: UserId, d1: Tables, d2: Tables, steps: seq<Step>)
    requires Integrity(d1) && Integrity(d2) && SameTenants(user, d1, d2)
    requires AllowedRun(d1, steps) && AllowedRun(d2, WithoutStrangers(d1, user, steps))
    requires JoinsAllAlike(d1, d2, user, steps)
    ensures OwnResponses(d1, steps, user) == OwnResponses(d2, WithoutStrangers(d1, user, steps), user)
            <==> CreatesAllAlike(d1, d2, user, steps)
    ensures CreatesAllAlike(d1, d2, user, steps)
            ==> SameTenants(user, ApplyAll(d1, steps), ApplyAll(d2, WithoutStrangers(d1, user, steps)))
    decreases |steps|
  {
    if steps != [] {
      var step, rest := steps[0], steps[1..];
      StepKeepsIntegrity(d1, step);
      if Outside(d1, user, step) {
        ErasedHead(user, d1, d2, steps);
        OutsideStep(user, d1, d2, step);
        StrangersLeaveNoTrace(user, Apply(d1, step), d2, rest);
      } else {
        var kept := WithoutStrangers(Apply(d1, step), user, rest);
        KeptHead(user, d1, d2, steps);
        assert steps == [step] + rest && ([step] + kept)[0] == step && ([step] + kept)[1..] == kept;
        ResponsesSplit(user, d1, d2, step, rest, kept);
        if Own(step, user) {
          OwnStepAnswers(user, d1, d2, step);
        }
        if CreatesAlike(d1, d2, user, step) {
          KeptStep(user, d1, d2, step);
          StepKeepsIntegrity(d2, step);
          StrangersLeaveNoTrace(user, Apply(d1, step), Apply(d2, step), rest);
        }
      }
    }
  }
}
