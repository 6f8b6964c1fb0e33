/** Who is admitted, in terms of the rows of the tables and the values a request carries. */
module Admission {
  import opened Options
  import opened Lifecycle
  import opened Database
  import opened Dependencies
  import opened Service
  import opened ServiceRuns

  /** The request is about this organisation, or about a row under it: a target of a scraper of a project. */
  predicate InOrganization(db: Tables, req: Request, o: OrganizationId) {
    match req
    case ListOrganizations => false
    case CreateOrganization(_, _, _) => false
    case ListProjects(organization) => organization == o
    case CreateProject(organization, _, _) => organization == o
    case GetProject(p) => ProjectIn(db, p, o)
    case UpdateProject(p, _) => ProjectIn(db, p, o)
    case ArchiveProject(p) => ProjectIn(db, p, o)
    case ListScrapers(p) => ProjectIn(db, p, o)
    case CreateScraper(p, _, _) => ProjectIn(db, p, o)
    case GetScraper(s) => ScraperIn(db, s, o)
    case UpdateScraper(s, _) => ScraperIn(db, s, o)
    case ArchiveScraper(s) => ScraperIn(db, s, o)
    case ListTargets(s) => ScraperIn(db, s, o)
    case CreateTarget(s, _, _) => ScraperIn(db, s, o)
    case UpdateTarget(t, _) => t in db.targets && ScraperIn(db, db.targets[t].scraper, o)
    case DeleteTarget(t) => t in db.targets && ScraperIn(db, db.targets[t].scraper, o)
  }

  predicate ProjectIn(db: Tables, p: ProjectId, o: OrganizationId) {
    p in db.projects && db.projects[p].organization == o
  }

  predicate ScraperIn(db: Tables, s: ScraperId, o: OrganizationId) {
    s in db.scrapers && ProjectIn(db, db.scrapers[s].project, o)
  }

  /** A membership row gives the user a role that suffices for the request. */
  ghost predicate Entitled(db: Tables, req: Request, user: UserId, o: OrganizationId, role: Role) {
    InOrganization(db, req, o) && Member(user, o, role) in db.members && Suffices(role, req)
  }

  lemma OwnerIsInOrganization(db: Tables, req: Request, o: OrganizationId)
    ensures OwnerAddressed(db, req) == Some(o) <==> InOrganization(db, req, o)
  {
  }

  lemma EntitledByRow(db: Tables, req: Request, user: UserId)
    requires UniqueMembers(db.members)
    ensures HasRole(db, OwnerAddressed(db, req), user, req) <==> exists o, role :: Entitled(db, req, user, o, role)
  {
    if HasRole(db, OwnerAddressed(db, req), user, req) {
      var o := OwnerAddressed(db, req).value;
      var role := GetMembership(db, user, o).value;
      OwnerIsInOrganization(db, req, o);
      RoleFoundExactly(db.members, user, o, role);
      assert Entitled(db, req, user, o, role);
    }
    forall o, role | Entitled(db, req, user, o, role) ensures HasRole(db, OwnerAddressed(db, req), user, req) {
      OwnerIsInOrganization(db, req, o);
      RoleFoundExactly(db.members, user, o, role);
    }
  }

  /** A request is admitted for `user` if and only if it presents a token that is not blank, the cookie's
      before the bearer's, which the session store resolves to `user`; the account is there and active; a
      membership row of `user`, in the organisation that the named row belongs to, has a sufficient role;
      and, if a cookie comes with a change, header and cookie repeat the session's CSRF value. */
  lemma AdmittedByRow(db: Tables, c: Credentials, s: Session, req: Request, user: UserId)
    requires UniqueMembers(db.members)
    ensures Admit(db, c, s, req) == Ok(user) <==>
            && (if c.cookie.Some? then c.cookie != Some(0) else c.bearer.Some? && c.bearer != Some(0))
            && s.user == Some(user) && user in db.users && db.users[user] == User(true, ActiveAccount)
            && (req.ListOrganizations? || req.CreateOrganization?
                || exists o, role :: Entitled(db, req, user, o, role))
            && (c.cookie.Some? && !ReadsOnly(req)
                ==> exists csrf: Token :: csrf != 0 && s.csrf == Some(csrf) && c.csrfHeader == Some(csrf)
                                          && c.csrfCookie == Some(csrf))
  {
    AdmittedExactly(db, c, s, req, user);
    EntitledByRow(db, req, user);
    if c.cookie.Some? && SameOrigin(c, s) {
      assert s.csrf == Some(s.csrf.value);
    }
  }
}
