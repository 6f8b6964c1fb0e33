/** The request dependencies: who is calling, the CSRF check, and the membership and role checks. They
    only read; the session store's two answers about the presented tokens are given in `Session`. */
module Dependencies {
  import opened Options
  import opened Lifecycle
  import opened Database

  datatype Failure =
    | NotAuthenticated | InvalidSession | AccountNotActive
    | CsrfFailed | InsufficientRole
    | OrganizationNotFound | ProjectNotFound | ScraperNotFound | TargetNotFound
    | SlugTaken
    | InvalidProjectTransition(currentProject: ProjectStatus, requestedProject: ProjectStatus)
    | InvalidScraperTransition(currentScraper: ScraperStatus, requestedScraper: ScraperStatus)
    | UnsafeUrl

  function StatusCode(failure: Failure): nat {
    match failure
    case NotAuthenticated | InvalidSession | AccountNotActive => 401
    case CsrfFailed | InsufficientRole => 403
    case OrganizationNotFound | ProjectNotFound | ScraperNotFound | TargetNotFound => 404
    case SlugTaken => 409
    case InvalidProjectTransition(_, _) => 409
    case InvalidScraperTransition(_, _) => 409
    case UnsafeUrl => 422
  }

  datatype Outcome<+T> = Ok(value: T) | Fail(failure: Failure) {
    predicate IsFailure() {
      Fail?
    }

    function PropagateFailure<U>(): Outcome<U>
      requires Fail?
    {
      Fail(failure)
    }

    function Extract(): T
      requires Ok?
    {
      value
    }
  }

  function Need(condition: bool, failure: Failure): Outcome<()> {
    if condition then Ok(()) else Fail(failure)
  }

  /** What a request carries: the session cookie, the token after a `Bearer` scheme, the CSRF pair. */
  datatype Credentials = Credentials(
    cookie: Option<Token>, bearer: Option<Token>, csrfHeader: Option<Token>, csrfCookie: Option<Token>,
    ipAddress: Option<string>)

  /** The session store's answers: the user of the presented token, the CSRF value of the cookie. */
  datatype Session = Session(user: Option<UserId>, csrf: Option<Token>)

  function PresentedToken(c: Credentials): Token {
    var token := if c.cookie.Some? then c.cookie else c.bearer;
    if token.Some? then token.value else BLANK
  }

  /** A session cookie takes precedence over a bearer token, even when it is blank; without either the
      token is blank. */
  lemma CookieBeforeBearer(c: Credentials, token: Token)
    ensures c.cookie == Some(token) ==> PresentedToken(c) == token
    ensures c.cookie == None && c.bearer == Some(token) ==> PresentedToken(c) == token
    ensures c.cookie == None && c.bearer == None ==> PresentedToken(c) == 0
  {
  }

  function GetCurrentUser(db: Tables, c: Credentials, s: Session): Outcome<UserId> {
    if PresentedToken(c) == BLANK then Fail(NotAuthenticated)
    else if s.user.None? then Fail(InvalidSession)
    else
      var id := s.user.value;
      if id !in db.users || !db.users[id].isActive || db.users[id].status != ActiveAccount
      then Fail(AccountNotActive)
      else Ok(id)
  }

  predicate Blank(value: Option<Token>) {
    value.None? || value.value == BLANK
  }

  function RequireCsrf(c: Credentials, s: Session): Outcome<()> {
    if c.cookie.None? then Ok(())
    else if Blank(s.csrf) || Blank(c.csrfCookie) || Blank(c.csrfHeader) then Fail(CsrfFailed)
    else if c.csrfCookie != c.csrfHeader || c.csrfCookie != s.csrf then Fail(CsrfFailed)
    else Ok(())
  }

  function GetMembership(db: Tables, user: UserId, organization: OrganizationId): Option<Role> {
    FindRole(db.members, user, organization)
  }

  function RequireMembership(db: Tables, user: UserId, organization: OrganizationId): Outcome<Role> {
    var role := GetMembership(db, user, organization);
    if role.None? then Fail(OrganizationNotFound) else Ok(role.value)
  }

  /** The shared shape of the three resource checks: absent and not-a-member look the same. */
  function RequireOwner(db: Tables, user: UserId, owner: Option<OrganizationId>, notFound: Failure): Outcome<Role> {
    var role := if owner.Some? then GetMembership(db, user, owner.value) else None;
    if role.None? then Fail(notFound) else Ok(role.value)
  }

  function RequireProjectRole(db: Tables, user: UserId, id: ProjectId, minimum: Role): Outcome<()> {
    var role :- RequireOwner(db, user, db.OwnerOfProject(id), ProjectNotFound);
    Need(RoleSatisfies(role, minimum), InsufficientRole)
  }

  function RequireScraperRole(db: Tables, user: UserId, id: ScraperId, minimum: Role): Outcome<()> {
    var role :- RequireOwner(db, user, db.OwnerOfScraper(id), ScraperNotFound);
    Need(RoleSatisfies(role, minimum), InsufficientRole)
  }

  function RequireTargetRole(db: Tables, user: UserId, id: TargetId, minimum: Role): Outcome<()> {
    var role :- RequireOwner(db, user, db.OwnerOfTarget(id), TargetNotFound);
    Need(RoleSatisfies(role, minimum), InsufficientRole)
  }
}
