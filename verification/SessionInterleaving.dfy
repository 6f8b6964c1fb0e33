/** The same operations cut into single store commands, so that any number of logins, rotations,
    revocations and lookups may interleave, and the clock may move between any two commands.

    Run alone, an operation's commands compose to the atomic operation (SoloIsAtomic). */
module SessionInterleaving {
  import opened Options
  import opened KeyValueStore
  import opened SessionOperations

  /** Where an operation stands: the next command it will issue, with what it has read so far. */
  datatype Thread =
    | IssueAccess(user: UserId, family: FamilyId, client: Client, pair: SessionPair)
    | IssueRefresh(user: UserId, family: FamilyId, client: Client, pair: SessionPair)
    | IssueIndex(family: FamilyId, pair: SessionPair)
    | IssueExpire(family: FamilyId, pair: SessionPair)
    | RotateRead(token: Token, pair: SessionPair)
    | RotateMark(token: Token, record: TokenRecord, pair: SessionPair)
    | RevokeRead(family: FamilyId, outcome: Reply)
    | RevokeTokens(family: FamilyId, members: set<TokenHash>, outcome: Reply)
    | RevokeSet(family: FamilyId, outcome: Reply)
    | LogoutRead(token: Token)
    | WhoIsRead(token: Token)
    | CsrfRead(token: Token)
    | Finished(reply: Reply)

  function Begin(op: Operation): Thread
    requires !op.Tick?
  {
    match op
    case Login(user, client, family, pair) => IssueAccess(user, family, client, pair)
    case Rotate(token, pair) => RotateRead(token, pair)
    case Revoke(family) => RevokeRead(family, Done)
    case Logout(token) => LogoutRead(token)
    case WhoIs(token) => WhoIsRead(token)
    case CsrfOf(token) => CsrfRead(token)
  }

  /** One store command, and what the operation does with its answer. */
  function Command(st: Store, thread: Thread): (Store, Thread) {
    match thread
    case IssueAccess(user, family, client, pair) =>
      (st.Set(TokenKeyOf(pair.access), FreshRecord(user, family, Access, client, pair.csrf),
              Some(ACCESS_TTL_SECONDS)),
       IssueRefresh(user, family, client, pair))
    case IssueRefresh(user, family, client, pair) =>
      (st.Set(TokenKeyOf(pair.refresh), FreshRecord(user, family, Refresh, client, pair.csrf),
              Some(REFRESH_TTL_SECONDS)),
       IssueIndex(family, pair))
    case IssueIndex(family, pair) =>
      (st.Sadd(FamilyKey(family), {Sha256(pair.access), Sha256(pair.refresh)}), IssueExpire(family, pair))
    case IssueExpire(family, pair) =>
      (st.Expire(FamilyKey(family), REFRESH_TTL_SECONDS), Finished(Issued(pair)))
    case RotateRead(token, pair) =>
      var (st, raw) := st.Get(TokenKeyOf(token));
      (st,
       if raw.None? then Finished(InvalidRefreshToken)
       else if raw.value.kind != Refresh then Finished(NotARefreshToken)
       else if raw.value.used then RevokeRead(raw.value.familyId, ReuseDetected(raw.value.familyId))
       else RotateMark(token, raw.value, pair))
    case RotateMark(token, record, pair) =>
      (st.Set(TokenKeyOf(token), record.(used := true), Some(REFRESH_TTL_SECONDS)),
       IssueAccess(record.userId, record.familyId, record.client, pair))
    case RevokeRead(family, outcome) =>
      var (st, members) := st.Smembers(FamilyKey(family));
      (st, if members != {} then RevokeTokens(family, members, outcome) else RevokeSet(family, outcome))
    case RevokeTokens(family, members, outcome) => (st.Delete(TokenKeys(members)), RevokeSet(family, outcome))
    case RevokeSet(family, outcome) => (st.Delete({FamilyKey(family)}), Finished(outcome))
    case LogoutRead(token) =>
      var (st, raw) := st.Get(TokenKeyOf(token));
      (st, if raw.None? then Finished(Done) else RevokeRead(raw.value.familyId, Done))
    case WhoIsRead(token) =>
      var (st, user) := GetUserIdForAccessToken(st, token);
      (st, Finished(Resolved(user)))
    case CsrfRead(token) =>
      var (st, csrf) := GetCsrfTokenForAccessToken(st, token);
      (st, Finished(CsrfIs(csrf)))
    case Finished(_) => (st, thread)
  }

  /** Commands left at most. */
  function Remaining(thread: Thread): nat {
    match thread
    case Finished(_) => 0
    case IssueExpire(_, _) => 1
    case IssueIndex(_, _) => 2
    case IssueRefresh(_, _, _, _) => 3
    case IssueAccess(_, _, _, _) => 4
    case RotateMark(_, _, _) => 5
    case RotateRead(_, _) => 6
    case RevokeSet(_, _) => 1
    case RevokeTokens(_, _, _) => 2
    case RevokeRead(_, _) => 3
    case LogoutRead(_) => 4
    case WhoIsRead(_) => 1
    case CsrfRead(_) => 1
  }

  function Solo(st: Store, thread: Thread): (Store, Reply)
    decreases Remaining(thread)
  {
    if thread.Finished? then (st, thread.reply)
    else
      var (st, thread) := Command(st, thread);
      Solo(st, thread)
  }

  lemma SoloIssue(st: Store, user: UserId, family: FamilyId, client: Client, pair: SessionPair)
    ensures Solo(st, IssueAccess(user, family, client, pair))
            == (IssuePair(st, user, family, client, pair), Issued(pair))
  {
    var (st1, t1) := Command(st, IssueAccess(user, family, client, pair));
    var (st2, t2) := Command(st1, t1);
    var (st3, t3) := Command(st2, t2);
    assert Solo(st, IssueAccess(user, family, client, pair)) == Solo(st1, t1) == Solo(st2, t2) == Solo(st3, t3);
  }

  lemma SoloRevoke(st: Store, family: FamilyId, outcome: Reply)
    ensures Solo(st, RevokeRead(family, outcome)) == (RevokeFamily(st, family), outcome)
  {
    var (st1, t1) := Command(st, RevokeRead(family, outcome));
    var (st2, t2) := Command(st1, t1);
    assert Solo(st, RevokeRead(family, outcome)) == Solo(st1, t1) == Solo(st2, t2);
  }

  /** With nothing interleaved, the commands compose to the atomic operation. */
  lemma SoloIsAtomic(st: Store, op: Operation)
    requires !op.Tick?
    ensures Solo(st, Begin(op)) == Do(st, op)
  {
    var (st1, t1) := Command(st, Begin(op));
    match op
    case Login(user, client, family, pair) => SoloIssue(st, user, family, client, pair);
    case Rotate(token, pair) =>
      match t1 {
        case RotateMark(_, record, _) =>
          var (st2, t2) := Command(st1, t1);
          assert Solo(st, Begin(op)) == Solo(st1, t1) == Solo(st2, t2);
          SoloIssue(st2, record.userId, record.familyId, record.client, pair);
        case RevokeRead(family, outcome) => SoloRevoke(st1, family, outcome);
        case _ =>
      }
    case Revoke(family) => SoloRevoke(st, family, Done);
    case Logout(token) =>
      if t1.RevokeRead? {
        SoloRevoke(st1, t1.family, Done);
      }
    case WhoIs(_) =>
    case CsrfOf(_) =>
  }

  // ---------- the interleaved system ----------

  /** What a hash was given when its record was first written. */
  datatype Birth = Birth(user: UserId, family: FamilyId, kind: TokenKind, client: Client, csrf: Token, at: Time)

  /** The store and the operations under way, with the history that the proofs follow: who opened each
      family, every hash's birth, and every hash ever marked used. */
  datatype System = System(
    store: Store, threads: map<nat, Thread>,
    openedBy: map<FamilyId, UserId>, births: map<TokenHash, Birth>, used: set<TokenHash>)

  datatype Event = Spawn(id: nat, op: Operation) | Advance(id: nat) | Wait(seconds: Time)

  /** Tokens drawn but not yet written. */
  function Pending(thread: Thread): set<Token> {
    match thread
    case IssueAccess(_, _, _, pair) => {pair.access, pair.refresh}
    case IssueRefresh(_, _, _, pair) => {pair.refresh}
    case RotateRead(_, pair) => {pair.access, pair.refresh}
    case RotateMark(_, _, pair) => {pair.access, pair.refresh}
    case _ => {}
  }

  predicate Unseen(sys: System, t: Token) {
    Sha256(t) !in sys.births && forall id <- sys.threads :: t !in Pending(sys.threads[id])
  }

  predicate Possible(sys: System, event: Event) {
    match event
    case Spawn(id, op) =>
      && id !in sys.threads && !op.Tick?
      && (op.Login? ==> op.family !in sys.openedBy)
      && (op.Login? || op.Rotate? ==>
            op.pair.access != op.pair.refresh && Unseen(sys, op.pair.access) && Unseen(sys, op.pair.refresh))
    case Advance(id) => id in sys.threads
    case Wait(seconds) => seconds >= 0.0
  }

  function Happen(sys: System, event: Event): System
    requires Possible(sys, event)
  {
    match event
    case Spawn(id, op) =>
      sys.(threads := sys.threads[id := Begin(op)],
           openedBy := if op.Login? then sys.openedBy[op.family := op.user] else sys.openedBy)
    case Wait(seconds) => sys.(store := sys.store.Tick(seconds))
    case Advance(id) =>
      var thread := sys.threads[id];
      var (st, next) := Command(sys.store, thread);
      System(st, sys.threads[id := next], sys.openedBy,
             match thread
             case IssueAccess(user, family, client, pair) =>
               sys.births[Sha256(pair.access) := Birth(user, family, Access, client, pair.csrf, sys.store.now)]
             case IssueRefresh(user, family, client, pair) =>
               sys.births[Sha256(pair.refresh) := Birth(user, family, Refresh, client, pair.csrf, sys.store.now)]
             case _ => sys.births,
             if thread.RotateMark? then sys.used + {Sha256(thread.token)} else sys.used)
  }

  predicate PossibleRun(sys: System, events: seq<Event>)
    decreases |events|
  {
    events != [] ==> Possible(sys, events[0]) && PossibleRun(Happen(sys, events[0]), events[1..])
  }

  function Unfold(sys: System, events: seq<Event>): System
    requires PossibleRun(sys, events)
    decreases |events|
  {
    if events == [] then sys else Unfold(Happen(sys, events[0]), events[1..])
  }

  function Idle(start: Time): System {
    System(EmptyStore(start), map[], map[], map[], {})
  }

  /** The record is the one its hash was born with, up to the used flag. */
  predicate BornAs(record: TokenRecord, birth: Birth) {
    && record.userId == birth.user && record.familyId == birth.family && record.kind == birth.kind
    && record.client == birth.client && record.csrf == birth.csrf
  }

  ghost predicate ValueOk(sys: System, h: TokenHash)
  {
    TokenKey(h) in sys.store.values ==>
      var record := sys.store.values[TokenKey(h)];
      && h in sys.births && BornAs(record, sys.births[h]) && (record.used <==> h in sys.used)
      && TokenKey(h) in sys.store.expiresAt
      && (record.kind.Access? ==>
            !record.used && sys.store.expiresAt[TokenKey(h)] == sys.births[h].at + ACCESS_TTL_SECONDS)
  }

  ghost predicate ThreadOk(sys: System, thread: Thread) {
    && (forall t <- Pending(thread) :: Sha256(t) !in sys.births)
    && match thread
       case IssueAccess(user, family, _, pair) =>
         pair.access != pair.refresh && family in sys.openedBy && sys.openedBy[family] == user
       case IssueRefresh(user, family, _, _) => family in sys.openedBy && sys.openedBy[family] == user
       case RotateRead(_, pair) => pair.access != pair.refresh
       case RotateMark(token, record, pair) =>
         && pair.access != pair.refresh && Sha256(token) in sys.births
         && BornAs(record, sys.births[Sha256(token)]) && record.kind.Refresh?
       case _ => true
  }

  ghost predicate BirthOk(sys: System, h: TokenHash) {
    h in sys.births ==>
      && sys.births[h].family in sys.openedBy && sys.openedBy[sys.births[h].family] == sys.births[h].user
      && sys.births[h].at <= sys.store.now
  }

  ghost predicate Healthy(sys: System) {
    && (forall h :: ValueOk(sys, h))
    && (forall h :: BirthOk(sys, h))
    && (forall h <- sys.used :: h in sys.births)
    && (forall id <- sys.threads :: ThreadOk(sys, sys.threads[id]))
    && (forall i <- sys.threads, j <- sys.threads :: i != j ==> Pending(sys.threads[i]) !! Pending(sys.threads[j]))
  }

  /** What no event takes back. */
  ghost predicate Evolves(sys: System, next: System) {
    && sys.store.now <= next.store.now
    && (forall f <- sys.openedBy :: f in next.openedBy && next.openedBy[f] == sys.openedBy[f])
    && (forall h <- sys.births :: h in next.births && next.births[h] == sys.births[h])
    && sys.used <= next.used
  }

  lemma AdvanceValue(sys: System, id: nat, h: TokenHash)
    requires Possible(sys, Advance(id)) && ThreadOk(sys, sys.threads[id])
    requires (forall g :: ValueOk(sys, g)) && forall g <- sys.used :: g in sys.births
    ensures ValueOk(Happen(sys, Advance(id)), h)
  {
    var thread := sys.threads[id];
    assert ValueOk(sys, h);
    match thread
    case IssueAccess(_, _, _, pair) =>
      assert ValueOk(sys, Sha256(pair.access)) && pair.access in Pending(thread);
    case IssueRefresh(_, _, _, pair) =>
      assert ValueOk(sys, Sha256(pair.refresh)) && pair.refresh in Pending(thread);
    case _ =>
  }

  lemma AdvanceBirth(sys: System, id: nat, h: TokenHash)
    requires Possible(sys, Advance(id)) && ThreadOk(sys, sys.threads[id]) && BirthOk(sys, h)
    ensures BirthOk(Happen(sys, Advance(id)), h)
  {
  }

  lemma AdvanceThread(sys: System, id: nat)
    requires Possible(sys, Advance(id)) && ThreadOk(sys, sys.threads[id])
    requires sys.threads[id].RotateRead? ==> ValueOk(sys, Sha256(sys.threads[id].token))
    requires sys.threads[id].RotateMark? ==> BirthOk(sys, Sha256(sys.threads[id].token))
    ensures var next := Happen(sys, Advance(id));
            ThreadOk(next, next.threads[id]) && Pending(next.threads[id]) <= Pending(sys.threads[id])
  {
  }

  lemma AdvanceOthers(sys: System, id: nat, other: nat)
    requires Healthy(sys) && Possible(sys, Advance(id)) && other in sys.threads && other != id
    ensures ThreadOk(Happen(sys, Advance(id)), sys.threads[other])
  {
    assert ThreadOk(sys, sys.threads[other]);
    assert Pending(sys.threads[id]) !! Pending(sys.threads[other]);
    forall t <- Pending(sys.threads[other])
      ensures Sha256(t) !in Happen(sys, Advance(id)).births
    {
      assert t !in Pending(sys.threads[id]);
    }
  }

  lemma AdvanceHealthy(sys: System, id: nat)
    requires Healthy(sys) && Possible(sys, Advance(id))
    ensures Healthy(Happen(sys, Advance(id)))
  {
    var next := Happen(sys, Advance(id));
    assert ThreadOk(sys, sys.threads[id]);
    forall h ensures ValueOk(next, h) && BirthOk(next, h) {
      assert BirthOk(sys, h);
      AdvanceValue(sys, id, h);
      AdvanceBirth(sys, id, h);
    }
    if sys.threads[id].RotateRead? || sys.threads[id].RotateMark? {
      assert ValueOk(sys, Sha256(sys.threads[id].token)) && BirthOk(sys, Sha256(sys.threads[id].token));
    }
    AdvanceThread(sys, id);
    forall other <- next.threads
      ensures ThreadOk(next, next.threads[other])
    {
      if other != id {
        AdvanceOthers(sys, id, other);
      }
    }
  }

  lemma SpawnThread(sys: System, id: nat, op: Operation, other: nat)
    requires Possible(sys, Spawn(id, op)) && other in Happen(sys, Spawn(id, op)).threads
    requires other != id ==> ThreadOk(sys, sys.threads[other])
    ensures var next := Happen(sys, Spawn(id, op)); ThreadOk(next, next.threads[other])
  {
  }

  lemma SpawnPending(sys: System, id: nat, op: Operation)
    requires Possible(sys, Spawn(id, op))
    requires forall i <- sys.threads, j <- sys.threads :: i != j ==> Pending(sys.threads[i]) !! Pending(sys.threads[j])
    ensures var threads := Happen(sys, Spawn(id, op)).threads;
            forall i <- threads, j <- threads :: i != j ==> Pending(threads[i]) !! Pending(threads[j])
  {
  }

  lemma SpawnRecords(sys: System, id: nat, op: Operation, h: TokenHash)
    requires Possible(sys, Spawn(id, op)) && ValueOk(sys, h) && BirthOk(sys, h)
    ensures ValueOk(Happen(sys, Spawn(id, op)), h) && BirthOk(Happen(sys, Spawn(id, op)), h)
  {
  }

  lemma SpawnHealthy(sys: System, id: nat, op: Operation)
    requires Healthy(sys) && Possible(sys, Spawn(id, op))
    ensures Healthy(Happen(sys, Spawn(id, op)))
  {
    var next := Happen(sys, Spawn(id, op));
    forall h ensures ValueOk(next, h) && BirthOk(next, h) {
      SpawnRecords(sys, id, op, h);
    }
    forall other <- next.threads ensures ThreadOk(next, next.threads[other]) {
      SpawnThread(sys, id, op, other);
    }
    SpawnPending(sys, id, op);
  }

  lemma EventHealthy(sys: System, event: Event)
    requires Healthy(sys) && Possible(sys, event)
    ensures Healthy(Happen(sys, event)) && Evolves(sys, Happen(sys, event))
  {
    var next := Happen(sys, event);
    match event
    case Spawn(id, op) => SpawnHealthy(sys, id, op);
    case Advance(id) =>
      AdvanceHealthy(sys, id);
      assert ThreadOk(sys, sys.threads[id]);
    case Wait(seconds) =>
      forall h ensures ValueOk(next, h) && BirthOk(next, h) {
        assert ValueOk(sys, h) && BirthOk(sys, h);
      }
      forall id <- next.threads ensures ThreadOk(next, next.threads[id]) {
        assert ThreadOk(sys, sys.threads[id]);
      }
  }

  lemma {:induction false} RunHealthy(sys: System, events: seq<Event>)
    requires Healthy(sys) && PossibleRun(sys, events)
    ensures Healthy(Unfold(sys, events)) && Evolves(sys, Unfold(sys, events))
    decreases |events|
  {
    if events != [] {
      EventHealthy(sys, events[0]);
      RunHealthy(Happen(sys, events[0]), events[1..]);
    }
  }

  /** Safety under interleaving. Take any two moments of any interleaved run at which a hash has a
      record: user, family, kind, client and CSRF value are the same, a used flag never goes back, and an
      access record's deadline has not moved. */
  lemma RecordsKeepTheirMeaning(start: Time, first: seq<Event>, later: seq<Event>, h: TokenHash)
    requires PossibleRun(Idle(start), first) && PossibleRun(Unfold(Idle(start), first), later)
    requires var sys := Unfold(Idle(start), first);
             TokenKey(h) in sys.store.values && TokenKey(h) in Unfold(sys, later).store.values
    ensures var st := Unfold(Idle(start), first).store;
            var st' := Unfold(Unfold(Idle(start), first), later).store;
            var record, record' := st.values[TokenKey(h)], st'.values[TokenKey(h)];
            && (record' == record || record' == record.(used := true))
            && TokenKey(h) in st.expiresAt && TokenKey(h) in st'.expiresAt
            && (record.kind.Access? ==> record' == record && st'.expiresAt[TokenKey(h)] == st.expiresAt[TokenKey(h)])
  {
    var sys := Unfold(Idle(start), first);
    RunHealthy(Idle(start), first);
    RunHealthy(sys, later);
    assert ValueOk(sys, h) && ValueOk(Unfold(sys, later), h);
  }

  /** However operations interleave, a lookup that answers names the user whose login opened the
      token's family, within fifteen minutes of the token's first write. */
  lemma LookupsStaySound(start: Time, events: seq<Event>, id: nat)
    requires PossibleRun(Idle(start), events)
    requires var sys := Unfold(Idle(start), events); id in sys.threads && sys.threads[id].WhoIsRead?
    ensures var sys := Unfold(Idle(start), events);
            var h := Sha256(sys.threads[id].token);
            match Command(sys.store, sys.threads[id]).1
            case Finished(Resolved(Some(user))) =>
              && h in sys.births && sys.births[h].kind.Access? && sys.births[h].family in sys.openedBy
              && user == sys.openedBy[sys.births[h].family] && sys.store.now < sys.births[h].at + ACCESS_TTL_SECONDS
            case _ => true
  {
    var sys := Unfold(Idle(start), events);
    RunHealthy(Idle(start), events);
    var h := Sha256(sys.threads[id].token);
    assert ValueOk(sys, h) && BirthOk(sys, h);
  }
}
