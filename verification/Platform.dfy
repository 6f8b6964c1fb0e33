/** The whole platform: the session store and the tables side by side. Requests are authenticated by
    looking their tokens up in the store, and every change is traced back to a login. */
module Platform {
  import opened Options
  import opened KeyValueStore
  import Ops = SessionOperations
  import opened SessionLedger
  import opened SessionRefinement
  import opened SessionRuns
  import opened SessionTheorems
  import opened Lifecycle
  import opened Database
  import opened Dependencies
  import opened Service
  import opened Admission
  import Runs = ServiceRuns

  datatype World = World(store: Store, ledger: Ledger, db: Tables)

  /** A login with the verdict of the password check; any other session operation; a request; or a change
      made outside the modelled routes. */
  datatype Step =
    | LogIn(user: UserId, passwordOk: bool, client: Client, family: FamilyId, pair: Ops.SessionPair)
    | SessionStep(op: Ops.Operation)
    | Serve(c: Credentials, req: Request)
    | Outside(change: Runs.Step)

  /** What the session store answers about a request's tokens. */
  function SessionOf(store: Store, c: Credentials): Session {
    Session(Ops.GetUserIdForAccessToken(store, PresentedToken(c)).1,
            if c.cookie.Some? then Ops.GetCsrfTokenForAccessToken(store, c.cookie.value).1 else None)
  }

  /** The store after those lookups, which may purge the keys they read. A request refused early skips
      some of them; neither way is anything visible changed. */
  function StoreAfterLookups(store: Store, c: Credentials): Store {
    var store := if c.cookie.Some? then Ops.GetCsrfTokenForAccessToken(store, c.cookie.value).0 else store;
    Ops.GetUserIdForAccessToken(store, PresentedToken(c)).0
  }

  predicate CanLogIn(db: Tables, step: Step)
    requires step.LogIn?
  {
    && step.passwordOk && step.user in db.users
    && db.users[step.user].isActive && db.users[step.user].status == ActiveAccount
  }

  predicate Possible(w: World, step: Step) {
    match step
    case LogIn(user, _, client, family, pair) => Admissible(w.ledger, Ops.Login(user, client, family, pair))
    case SessionStep(op) => !op.Login? && Admissible(w.ledger, op)
    case Serve(_, req) => FreshId(w.db, req)
    case Outside(change) => !change.Call? && Runs.Allowed(w.db, change)
  }

  function Take(w: World, step: Step): World {
    match step
    case LogIn(user, _, client, family, pair) =>
      if CanLogIn(w.db, step) then
        var op := Ops.Login(user, client, family, pair);
        World(Ops.Do(w.store, op).0, Spec(w.ledger, op).0, w.db)
      else w
    case SessionStep(op) => World(Ops.Do(w.store, op).0, Spec(w.ledger, op).0, w.db)
    case Serve(c, req) =>
      World(StoreAfterLookups(w.store, c), w.ledger, Handle(w.db, c, SessionOf(w.store, c), req).1)
    case Outside(change) => w.(db := Runs.Apply(w.db, change))
  }

  /** A login opens a session if and only if the password is right and the account there and active; then
      the access token resolves to the user at once. Otherwise it changes nothing. */
  lemma LoginExactly(w: World, user: UserId, passwordOk: bool, client: Client, f: FamilyId, pair: Ops.SessionPair)
    requires Agrees(w.store, w.ledger) && Possible(w, LogIn(user, passwordOk, client, f, pair))
    ensures var next := Take(w, LogIn(user, passwordOk, client, f, pair));
            var right := passwordOk && user in w.db.users && w.db.users[user] == User(true, ActiveAccount);
            && (f in next.ledger.logins <==> right)
            && (Ops.GetUserIdForAccessToken(next.store, pair.access).1 == Some(user) <==> right)
            && (!right ==> next == w) && next.db == w.db
  {
    var op := Ops.Login(user, client, f, pair);
    if passwordOk && user in w.db.users && w.db.users[user] == User(true, ActiveAccount) {
      StepRefines(w.store, w.ledger, op);
      var login := LoginRecord(user, client, []);
      ExtendShows(w.ledger, f, login, pair);
      ReadsAgree(Ops.Do(w.store, op).0, Spec(w.ledger, op).0, pair.access);
    } else {
      ReadsAgree(w.store, w.ledger, pair.access);
    }
  }

  predicate PossibleRun(w: World, steps: seq<Step>)
    decreases |steps|
  {
    steps != [] ==> Possible(w, steps[0]) && PossibleRun(Take(w, steps[0]), steps[1..])
  }

  function TakeAll(w: World, steps: seq<Step>): World
    decreases |steps|
  {
    if steps == [] then w else TakeAll(Take(w, steps[0]), steps[1..])
  }

  function Genesis(start: Time): World {
    World(Ops.EmptyStore(start), NoHistory(start), EMPTY_TABLES)
  }

  /** The store agrees with the history of logins; every login ever made was by a user with an account. */
  ghost predicate Coherent(w: World) {
    Agrees(w.store, w.ledger) && Integrity(w.db) && forall f <- w.ledger.logins :: w.ledger.logins[f].user in w.db.users
  }

  lemma LookupsAgree(store: Store, ledger: Ledger, c: Credentials)
    requires Agrees(store, ledger)
    ensures Agrees(StoreAfterLookups(store, c), ledger)
  {
    if c.cookie.Some? {
      ReadsAgree(store, ledger, c.cookie.value);
      ReadsAgree(Ops.GetCsrfTokenForAccessToken(store, c.cookie.value).0, ledger, PresentedToken(c));
    } else {
      ReadsAgree(store, ledger, PresentedToken(c));
    }
  }

  lemma SpecLogins(led: Ledger, op: Ops.Operation)
    requires Admissible(led, op)
    ensures forall f <- Spec(led, op).0.logins ::
              if f in led.logins then Spec(led, op).0.logins[f].user == led.logins[f].user
              else op.Login? && op.family == f && Spec(led, op).0.logins[f].user == op.user
  {
  }

  lemma StepKeepsCoherent(w: World, step: Step)
    requires Coherent(w) && Possible(w, step)
    ensures Coherent(Take(w, step))
  {
    match step
    case LogIn(user, _, client, family, pair) =>
      if CanLogIn(w.db, step) {
        var op := Ops.Login(user, client, family, pair);
        StepRefines(w.store, w.ledger, op);
        SpecLogins(w.ledger, op);
      }
    case SessionStep(op) =>
      StepRefines(w.store, w.ledger, op);
      SpecLogins(w.ledger, op);
    case Serve(c, req) =>
      LookupsAgree(w.store, w.ledger, c);
      Runs.RequestKeepsIntegrity(w.db, c, SessionOf(w.store, c), req);
      Runs.UsersStay(w.db, c, SessionOf(w.store, c), req);
    case Outside(change) => Runs.StepKeepsIntegrity(w.db, change);
  }

  lemma {:induction false} RunKeepsCoherent(w: World, steps: seq<Step>)
    requires Coherent(w) && PossibleRun(w, steps)
    ensures Coherent(TakeAll(w, steps))
    decreases |steps|
  {
    if steps != [] {
      StepKeepsCoherent(w, steps[0]);
      RunKeepsCoherent(Take(w, steps[0]), steps[1..]);
    }
  }

  lemma {:induction false} RunPrefix(w: World, steps: seq<Step>, i: nat)
    requires PossibleRun(w, steps) && i < |steps|
    ensures PossibleRun(w, steps[..i]) && Possible(TakeAll(w, steps[..i]), steps[i])
    ensures TakeAll(w, steps[..i + 1]) == Take(TakeAll(w, steps[..i]), steps[i])
    decreases |steps|
  {
    if i > 0 {
      RunPrefix(Take(w, steps[0]), steps[1..], i - 1);
      assert steps[..i][0] == steps[0] && steps[..i][1..] == steps[1..][..i - 1];
      assert steps[..i + 1][1..] == steps[1..][..i];
    } else {
      assert steps[..1][1..] == [];
    }
  }

  /** Rows of some project, scraper or target differ. */
  predicate ChangesRows(db: Tables, next: Tables) {
    next.projects != db.projects || next.scrapers != db.scrapers || next.targets != db.targets
  }

  /** The presented token is the access token of a pair issued less than fifteen minutes ago in family
      `f`, which a login of `user` opened and nobody has revoked. */
  ghost predicate HoldsSession(w: World, token: Token, user: UserId, f: FamilyId) {
    exists i: nat :: IssuedAs(w.ledger, token, Access, f, i) && w.ledger.logins[f].user == user
                     && w.store.now < w.ledger.logins[f].chain[i].at + Ops.ACCESS_TTL_SECONDS && f !in w.ledger.revoked
  }

  /** `user` may make this change: active, in session, with a membership row of MANAGER or above that
      suffices for the request, in the organisation that the row it names belongs to, and past the CSRF
      check if a cookie carried the token. */
  ghost predicate Authorised(w: World, c: Credentials, req: Request, user: UserId, f: FamilyId) {
    && user in w.db.users && w.db.users[user] == User(true, ActiveAccount)
    && HoldsSession(w, PresentedToken(c), user, f)
    && (exists o, role :: Entitled(w.db, req, user, o, role) && role in {Manager, Admin, Owner})
    && Runs.SameOrigin(c, SessionOf(w.store, c))
  }

  /** The `j`-th step opened family `f` for `user`: the password was right and the account active then. */
  ghost predicate OpenedAt(start: Time, steps: seq<Step>, j: nat, f: FamilyId, user: UserId) {
    && j < |steps| && steps[j].LogIn? && steps[j].family == f && steps[j].user == user
    && steps[j].passwordOk
    && var db := TakeAll(Genesis(start), steps[..j]).db;
       user in db.users && db.users[user] == User(true, ActiveAccount)
  }

  lemma {:induction false} FamiliesComeFromLogins(start: Time, steps: seq<Step>, i: nat, f: FamilyId)
    requires PossibleRun(Genesis(start), steps) && i <= |steps|
    requires f in TakeAll(Genesis(start), steps[..i]).ledger.logins
    ensures exists j: nat ::
              j < i && OpenedAt(start, steps, j, f, TakeAll(Genesis(start), steps[..i]).ledger.logins[f].user)
    decreases i
  {
    if i > 0 {
      var w := TakeAll(Genesis(start), steps[..i - 1]);
      RunPrefix(Genesis(start), steps, i - 1);
      if f in w.ledger.logins {
        FamiliesComeFromLogins(start, steps, i - 1, f);
        StepKeepsLogins(w, steps[i - 1], f);
      } else {
        NewFamilyIsLogin(w, steps[i - 1], f);
        assert OpenedAt(start, steps, i - 1, f, steps[i - 1].user);
      }
    }
  }

  lemma StepKeepsLogins(w: World, step: Step, f: FamilyId)
    requires Possible(w, step) && f in w.ledger.logins
    ensures f in Take(w, step).ledger.logins && Take(w, step).ledger.logins[f].user == w.ledger.logins[f].user
  {
  }

  lemma NewFamilyIsLogin(w: World, step: Step, f: FamilyId)
    requires Possible(w, step) && f !in w.ledger.logins && f in Take(w, step).ledger.logins
    ensures step.LogIn? && step.family == f && step.passwordOk
    ensures step.user in w.db.users && w.db.users[step.user] == User(true, ActiveAccount)
    ensures Take(w, step).ledger.logins[f].user == step.user
  {
  }

  /** Authority over whole runs: a step of any run that changes a project, scraper or target is a request
      by a user authorised for it at that moment, in a session that an earlier login of that user opened. */
  lemma ChangesAreAuthorised(start: Time, steps: seq<Step>, i: nat)
    requires PossibleRun(Genesis(start), steps) && i < |steps|
    requires ChangesRows(TakeAll(Genesis(start), steps[..i]).db, TakeAll(Genesis(start), steps[..i + 1]).db)
    ensures steps[i].Serve?
    ensures exists user, f, j: nat ::
              && Authorised(TakeAll(Genesis(start), steps[..i]), steps[i].c, steps[i].req, user, f)
              && j < i && OpenedAt(start, steps, j, f, user)
  {
    var w := TakeAll(Genesis(start), steps[..i]);
    GenesisIsCoherent(start);
    RunPrefix(Genesis(start), steps, i);
    RunKeepsCoherent(Genesis(start), steps[..i]);
    ChangeIsAuthorised(w, steps[i]);
    var user, f :| Authorised(w, steps[i].c, steps[i].req, user, f);
    FamiliesComeFromLogins(start, steps, i, f);
  }

  lemma GenesisIsCoherent(start: Time)
    ensures Coherent(Genesis(start))
  {
    EmptyAgrees(start);
  }

  lemma ChangeIsAuthorised(w: World, step: Step)
    requires Agrees(w.store, w.ledger) && Possible(w, step) && ChangesRows(w.db, Take(w, step).db)
    requires UniqueMembers(w.db.members)
    ensures step.Serve?
    ensures exists user, f :: Authorised(w, step.c, step.req, user, f)
  {
    OnlyRequestsChangeRows(w, step);
    ServedChangeIsAuthorised(w, step.c, step.req);
  }

  lemma OnlyRequestsChangeRows(w: World, step: Step)
    requires Possible(w, step) && ChangesRows(w.db, Take(w, step).db)
    ensures step.Serve?
  {
  }

  lemma ServedChangeIsAuthorised(w: World, c: Credentials, req: Request)
    requires Agrees(w.store, w.ledger) && ChangesRows(w.db, Handle(w.db, c, SessionOf(w.store, c), req).1)
    requires UniqueMembers(w.db.members)
    ensures exists user, f :: Authorised(w, c, req, user, f)
  {
    var s := SessionOf(w.store, c);
    ChangerWasAdmitted(w.db, c, s, req);
    Runs.AdmittedOwns(w.db, c, s, req);
    ChangerIsEntitled(w.db, c, s, req);
    var f := SessionIsHeld(w, PresentedToken(c), s.user.value);
    assert Authorised(w, c, req, s.user.value, f);
  }

  lemma SessionIsHeld(w: World, token: Token, user: UserId) returns (f: FamilyId)
    requires Agrees(w.store, w.ledger) && Ops.GetUserIdForAccessToken(w.store, token).1 == Some(user)
    ensures HoldsSession(w, token, user, f)
  {
    AccessTokenMeansLoginNow(w.store, w.ledger, token, user);
    var g, i: nat :| IssuedAs(w.ledger, token, Access, g, i) && w.ledger.logins[g].user == user
                     && w.store.now < w.ledger.logins[g].chain[i].at + Ops.ACCESS_TTL_SECONDS && g !in w.ledger.revoked;
    f := g;
  }

  lemma ChangerIsEntitled(db: Tables, c: Credentials, s: Session, req: Request)
    requires UniqueMembers(db.members) && ChangesRows(db, Handle(db, c, s, req).1)
    ensures s.user.Some?
    ensures exists o, role :: Entitled(db, req, s.user.value, o, role) && role in {Manager, Admin, Owner}
  {
    ChangerWasAdmitted(db, c, s, req);
    AdmittedByRow(db, c, s, req, s.user.value);
    var o, role :| Entitled(db, req, s.user.value, o, role);
    assert Entitled(db, req, s.user.value, o, role) && role in {Manager, Admin, Owner};
  }

  lemma ChangerWasAdmitted(db: Tables, c: Credentials, s: Session, req: Request)
    requires ChangesRows(db, Handle(db, c, s, req).1)
    ensures Admit(db, c, s, req).Ok? && !Runs.ReadsOnly(req) && !req.CreateOrganization?
  {
  }

  // ---------- the parts of a run ----------

  /** What a run of the platform does to the tables. */
  function TableSteps(w: World, steps: seq<Step>): seq<Runs.Step>
    decreases |steps|
  {
    if steps == [] then []
    else
      (match steps[0]
       case Serve(c, req) => [Runs.Call(c, SessionOf(w.store, c), req)]
       case Outside(change) => [change]
       case _ => [])
      + TableSteps(Take(w, steps[0]), steps[1..])
  }

  /** Every theorem about serial runs of requests holds of the platform's tables. */
  lemma {:induction false} TablesRunSerially(w: World, steps: seq<Step>)
    requires PossibleRun(w, steps)
    ensures Runs.AllowedRun(w.db, TableSteps(w, steps))
    ensures TakeAll(w, steps).db == Runs.ApplyAll(w.db, TableSteps(w, steps))
    decreases |steps|
  {
    if steps != [] {
      var step, rest := steps[0], TableSteps(Take(w, steps[0]), steps[1..]);
      TablesRunSerially(Take(w, step), steps[1..]);
      if step.Serve? || step.Outside? {
        var first := if step.Serve? then Runs.Call(step.c, SessionOf(w.store, step.c), step.req) else step.change;
        assert TableSteps(w, steps) == [first] + rest;
        assert ([first] + rest)[0] == first && ([first] + rest)[1..] == rest;
      } else {
        assert TableSteps(w, steps) == rest;
      }
    }
  }

  /** What one step does to the session store. */
  function SessionSteps(w: World, step: Step): seq<Ops.Operation> {
    match step
    case LogIn(user, _, client, family, pair) =>
      if CanLogIn(w.db, step) then [Ops.Login(user, client, family, pair)] else []
    case SessionStep(op) => [op]
    case Serve(c, _) =>
      (if c.cookie.Some? then [Ops.CsrfOf(c.cookie.value)] else []) + [Ops.WhoIs(PresentedToken(c))]
    case Outside(_) => []
  }

  function StoreSteps(w: World, steps: seq<Step>): seq<Ops.Operation>
    decreases |steps|
  {
    if steps == [] then [] else SessionSteps(w, steps[0]) + StoreSteps(Take(w, steps[0]), steps[1..])
  }

  /** Every theorem about runs of the session store holds of the platform's store: what a platform run
      does to it is an admissible run of session operations, with the same history. */
  lemma {:induction false} StoreRunsAtomically(w: World, steps: seq<Step>)
    requires w.ledger.Sound() && PossibleRun(w, steps)
    ensures AdmissibleRun(w.ledger, StoreSteps(w, steps))
    ensures SpecRun(w.ledger, StoreSteps(w, steps)).0 == TakeAll(w, steps).ledger
    ensures TakeAll(w, steps).store == Ops.Run(w.store, StoreSteps(w, steps)).0
    decreases |steps|
  {
    if steps != [] {
      var next := Take(w, steps[0]);
      var first, rest := SessionSteps(w, steps[0]), StoreSteps(next, steps[1..]);
      StepRunsAtomically(w, steps[0]);
      StepIsAdmissible(w, steps[0]);
      StoreRunsAtomically(next, steps[1..]);
      StoreRunSplits(w.store, first, rest);
      SpecRunJoins(w.ledger, first, rest);
      SpecRunSplits(w.ledger, first, rest);
    }
  }

  lemma StepRunsAtomically(w: World, step: Step)
    ensures Take(w, step).store == Ops.Run(w.store, SessionSteps(w, step)).0
  {
    match step
    case LogIn(_, _, _, _, _) =>
      if CanLogIn(w.db, step) {
        OneOperation(w.store, SessionSteps(w, step));
      }
    case SessionStep(op) => OneOperation(w.store, [op]);
    case Serve(c, req) => LookupsRun(w, c, req);
    case Outside(_) =>
  }

  /** The lookups of a request are two session operations, and their replies are the session it is
      served with. */
  lemma LookupsRun(w: World, c: Credentials, req: Request)
    ensures var (store, replies) := Ops.Run(w.store, SessionSteps(w, Serve(c, req)));
            && store == StoreAfterLookups(w.store, c)
            && replies == (if c.cookie.Some? then [Ops.CsrfIs(SessionOf(w.store, c).csrf)] else [])
                          + [Ops.Resolved(SessionOf(w.store, c).user)]
  {
    var lookup := Ops.WhoIs(PresentedToken(c));
    if c.cookie.Some? {
      var csrf := Ops.CsrfOf(c.cookie.value);
      StoreRunSplits(w.store, [csrf], [lookup]);
      OneOperation(w.store, [csrf]);
      OneOperation(Ops.Do(w.store, csrf).0, [lookup]);
      LookupsCommute(w.store, c.cookie.value, PresentedToken(c));
    } else {
      assert SessionSteps(w, Serve(c, req)) == [lookup];
      OneOperation(w.store, [lookup]);
    }
  }

  /** A lookup before it, which may purge a key, does not change what a lookup answers. */
  lemma LookupsCommute(store: Store, first: Token, second: Token)
    ensures Ops.GetUserIdForAccessToken(Ops.GetCsrfTokenForAccessToken(store, first).0, second).1
            == Ops.GetUserIdForAccessToken(store, second).1
  {
  }

  lemma StepIsAdmissible(w: World, step: Step)
    requires w.ledger.Sound() && Possible(w, step)
    ensures AdmissibleRun(w.ledger, SessionSteps(w, step))
    ensures SpecRun(w.ledger, SessionSteps(w, step)).0 == Take(w, step).ledger
  {
    match step
    case LogIn(_, _, _, _, _) =>
      if CanLogIn(w.db, step) {
        OneAdmissible(w.ledger, SessionSteps(w, step));
      }
    case SessionStep(op) => OneAdmissible(w.ledger, [op]);
    case Serve(c, req) =>
      var lookup := Ops.WhoIs(PresentedToken(c));
      OneAdmissible(w.ledger, [lookup]);
      if c.cookie.Some? {
        OneAdmissible(w.ledger, [Ops.CsrfOf(c.cookie.value)]);
        SpecRunJoins(w.ledger, [Ops.CsrfOf(c.cookie.value)], [lookup]);
        SpecRunSplits(w.ledger, [Ops.CsrfOf(c.cookie.value)], [lookup]);
      } else {
        assert SessionSteps(w, step) == [lookup];
      }
    case Outside(_) =>
  }

  lemma OneOperation(store: Store, ops: seq<Ops.Operation>)
    requires |ops| == 1
    ensures Ops.Run(store, ops).0 == Ops.Do(store, ops[0]).0 && Ops.Run(store, ops).1 == [Ops.Do(store, ops[0]).1]
  {
    assert ops[1..] == [];
  }

  lemma OneAdmissible(led: Ledger, ops: seq<Ops.Operation>)
    requires led.Sound() && |ops| == 1 && Admissible(led, ops[0])
    ensures AdmissibleRun(led, ops) && SpecRun(led, ops).0 == Spec(led, ops[0]).0
  {
    SpecKeepsSound(led, ops[0]);
    assert ops[1..] == [];
  }

  /** The step revokes the family: by logout with a live token of it, by a rotation answered with reuse,
      or directly. */
  predicate RevokesFamily(w: World, step: Step, f: FamilyId) {
    step.SessionStep? &&
    match step.op
    case Logout(token) =>
      var slot := Visible(w.store, Ops.TokenKeyOf(token));
      slot.Record? && slot.record.familyId == f
    case Rotate(_, _) => Ops.Do(w.store, step.op).1 == Ops.ReuseDetected(f)
    case Revoke(family) => family == f
    case _ => false
  }

  /** Exactly these steps add to the revoked families of the history. */
  lemma RevokedByStep(w: World, step: Step, f: FamilyId)
    requires Coherent(w) && Possible(w, step)
    ensures f in Take(w, step).ledger.revoked <==> f in w.ledger.revoked || RevokesFamily(w, step, f)
  {
    if step.SessionStep? {
      StepRefines(w.store, w.ledger, step.op);
      if step.op.Logout? {
        var key := Ops.TokenKeyOf(step.op.token);
        assert Visible(w.store, key) == w.ledger.Render(key);
      }
    }
  }

  /** Revocation is permanent on the platform: once a family is revoked, by logout, by detected reuse or
      directly, nothing of it is visible in the store after any later step, so no request is ever served
      in it again. */
  lemma RevocationReachesRequests(start: Time, before: seq<Step>, f: FamilyId, after: seq<Step>)
    requires PossibleRun(Genesis(start), before) && f in TakeAll(Genesis(start), before).ledger.revoked
    requires PossibleRun(TakeAll(Genesis(start), before), after)
    ensures var w := TakeAll(TakeAll(Genesis(start), before), after);
            && NothingShown(w.store, f)
            && forall token, user :: !HoldsSession(w, token, user, f)
  {
    var w := TakeAll(Genesis(start), before);
    GenesisIsCoherent(start);
    RunKeepsCoherent(Genesis(start), before);
    StoreRunsAtomically(w, after);
    RevokedForEver(w.store, w.ledger, f, StoreSteps(w, after));
    RunGrows(w.ledger, StoreSteps(w, after));
  }
}
