/** Running one operation of the interleaved system alone; and the theorem that a refresh token rotates at
    most once, which overlapping rotations can break: a run that breaks it, and exactly when it holds. */
module SessionOverlaps {
  import opened Options
  import opened KeyValueStore
  import opened SessionOperations
  import opened SessionInterleaving

  // ---------- running one operation of a system alone ----------

  function Advances(id: nat, n: nat): seq<Event> {
    if n == 0 then [] else [Advance(id)] + Advances(id, n - 1)
  }

  lemma EventsUnfold(sys: System, event: Event, rest: seq<Event>)
    requires Possible(sys, event)
    ensures PossibleRun(sys, [event] + rest) <==> PossibleRun(Happen(sys, event), rest)
    ensures PossibleRun(sys, [event] + rest) ==> Unfold(sys, [event] + rest) == Unfold(Happen(sys, event), rest)
  {
    assert ([event] + rest)[0] == event && ([event] + rest)[1..] == rest;
  }

  lemma {:induction false} EventsJoin(sys: System, before: seq<Event>, after: seq<Event>)
    requires PossibleRun(sys, before) && PossibleRun(Unfold(sys, before), after)
    ensures PossibleRun(sys, before + after)
    ensures Unfold(sys, before + after) == Unfold(Unfold(sys, before), after)
    decreases |before|
  {
    if before == [] {
      assert before + after == after;
    } else {
      EventsJoin(Happen(sys, before[0]), before[1..], after);
      assert before + after == [before[0]] + (before[1..] + after);
      EventsUnfold(sys, before[0], before[1..] + after);
    }
  }

  /** From `sys` to `end` one operation ran to its finish, did to the store what it does alone, and nothing
      else moved. */
  predicate RanAlone(sys: System, end: System, id: nat)
    requires id in sys.threads
  {
    var (store, reply) := Solo(sys.store, sys.threads[id]);
    end.store == store && end.threads == sys.threads[id := Finished(reply)] && end.openedBy == sys.openedBy
  }

  lemma AdvanceOnce(sys: System, end: System, id: nat)
    requires id in sys.threads
    ensures var next := Happen(sys, Advance(id));
            && id in next.threads && (RanAlone(next, end, id) ==> RanAlone(sys, end, id))
            && (Remaining(next.threads[id]) < Remaining(sys.threads[id]) || next == sys)
  {
    if !sys.threads[id].Finished? {
      assert Solo(sys.store, sys.threads[id])
          == Solo(Happen(sys, Advance(id)).store, Happen(sys, Advance(id)).threads[id]);
    }
  }

  /** Advanced without interruption, an operation does to the store what it does alone, and finishes. */
  lemma {:induction false} AdvancesAlone(sys: System, id: nat, n: nat)
    requires id in sys.threads && n >= Remaining(sys.threads[id])
    ensures PossibleRun(sys, Advances(id, n)) && RanAlone(sys, Unfold(sys, Advances(id, n)), id)
    decreases n
  {
    if n > 0 {
      var next := Happen(sys, Advance(id));
      AdvanceOnce(sys, sys, id);
      AdvancesAlone(next, id, n - 1);
      EventsUnfold(sys, Advance(id), Advances(id, n - 1));
      AdvanceOnce(sys, Unfold(next, Advances(id, n - 1)), id);
    }
  }

  lemma AdvanceBirths(sys: System, id: nat)
    requires id in sys.threads
    ensures var next := Happen(sys, Advance(id));
            && (forall h <- next.births :: h in sys.births || h.token in Pending(sys.threads[id]))
            && Pending(next.threads[id]) <= Pending(sys.threads[id])
            && (Remaining(next.threads[id]) < Remaining(sys.threads[id]) || next.threads[id].Finished?)
  {
  }

  /** It writes under no tokens but its own. */
  lemma {:induction false} AdvancesBirths(sys: System, id: nat, n: nat)
    requires id in sys.threads && n >= Remaining(sys.threads[id])
    requires PossibleRun(sys, Advances(id, n))
    ensures forall h <- Unfold(sys, Advances(id, n)).births :: h in sys.births || h.token in Pending(sys.threads[id])
    decreases n
  {
    if n > 0 {
      AdvanceBirths(sys, id);
      EventsUnfold(sys, Advance(id), Advances(id, n - 1));
      AdvancesBirths(Happen(sys, Advance(id)), id, n - 1);
    }
  }

  // ---------- a rotation that has read ----------

  predicate FourTokens(first: SessionPair, second: SessionPair) {
    && first.access != first.refresh && second.access != second.refresh
    && second.access != first.access && second.access != first.refresh
    && second.refresh != first.access && second.refresh != first.refresh
  }

  function RotationHasRead(user: UserId, client: Client, f: FamilyId, first: SessionPair, second: SessionPair)
    : seq<Event>
  {
    LoggedIn(user, client, f, first) + [Spawn(1, Rotate(first.refresh, second)), Advance(1)]
  }

  function LoggedIn(user: UserId, client: Client, f: FamilyId, first: SessionPair): seq<Event> {
    [Spawn(0, Login(user, client, f, first))] + Advances(0, 4)
  }

  lemma LogInAlone(start: Time, user: UserId, client: Client, f: FamilyId, first: SessionPair)
    requires first.access != first.refresh
    ensures PossibleRun(Idle(start), LoggedIn(user, client, f, first))
    ensures var sys := Unfold(Idle(start), LoggedIn(user, client, f, first));
            && sys.store == IssuePair(EmptyStore(start), user, f, client, first)
            && sys.threads == map[0 := Finished(Issued(first))] && f in sys.openedBy
            && forall h <- sys.births :: h.token == first.access || h.token == first.refresh
  {
    var spawn := Spawn(0, Login(user, client, f, first));
    AdvancesAlone(Happen(Idle(start), spawn), 0, 4);
    AdvancesBirths(Happen(Idle(start), spawn), 0, 4);
    SoloIssue(EmptyStore(start), user, f, client, first);
    EventsUnfold(Idle(start), spawn, Advances(0, 4));
  }

  /** A rotation begins and reads a live unused record. */
  lemma RotationReads(sys: System, id: nat, token: Token, pair: SessionPair)
    requires id !in sys.threads && pair.access != pair.refresh && Unseen(sys, pair.access) && Unseen(sys, pair.refresh)
    requires TokenKeyOf(token) in sys.store.values && !sys.store.IsExpired(TokenKeyOf(token))
    requires sys.store.values[TokenKeyOf(token)].kind.Refresh? && !sys.store.values[TokenKeyOf(token)].used
    ensures PossibleRun(sys, [Spawn(id, Rotate(token, pair)), Advance(id)])
    ensures var next := Unfold(sys, [Spawn(id, Rotate(token, pair)), Advance(id)]);
            && next.threads == sys.threads[id := RotateMark(token, sys.store.values[TokenKeyOf(token)], pair)]
            && next.store == sys.store && next.openedBy == sys.openedBy && next.births == sys.births
  {
    var spawn := Spawn(id, Rotate(token, pair));
    EventsUnfold(Happen(sys, spawn), Advance(id), []);
    EventsUnfold(sys, spawn, [Advance(id)]);
    assert [spawn] + [Advance(id)] == [spawn, Advance(id)] && [Advance(id)] + [] == [Advance(id)];
  }

  /** The rotation has read the unused record, and is about to mark it. */
  lemma ReadAfterLogIn(start: Time, user: UserId, client: Client, f: FamilyId, first: SessionPair, second: SessionPair)
    requires FourTokens(first, second)
    ensures PossibleRun(Idle(start), RotationHasRead(user, client, f, first, second))
    ensures var sys := Unfold(Idle(start), RotationHasRead(user, client, f, first, second));
            var record := FreshRecord(user, f, Refresh, client, first.csrf);
            && sys.store == IssuePair(EmptyStore(start), user, f, client, first) && f in sys.openedBy
            && sys.threads == map[0 := Finished(Issued(first)), 1 := RotateMark(first.refresh, record, second)]
            && forall h <- sys.births :: h.token == first.access || h.token == first.refresh
  {
    LogInAlone(start, user, client, f, first);
    var sys := Unfold(Idle(start), LoggedIn(user, client, f, first));
    RotationReads(sys, 1, first.refresh, second);
    EventsJoin(Idle(start), LoggedIn(user, client, f, first), [Spawn(1, Rotate(first.refresh, second)), Advance(1)]);
  }

  /** Whatever the store, a rotation that has read its record finishes by issuing its pair. */
  lemma MarkedThenIssued(st: Store, thread: Thread)
    requires thread.RotateMark? && thread.pair.access != thread.pair.refresh
    ensures Solo(st, thread).1 == Issued(thread.pair)
    ensures GetUserIdForAccessToken(Solo(st, thread).0, thread.pair.access).1 == Some(thread.record.userId)
  {
    var (st1, t1) := Command(st, thread);
    assert Solo(st, thread) == Solo(st1, t1);
    SoloIssue(st1, t1.user, t1.family, t1.client, t1.pair);
  }

  // ---------- rotation ----------

  /** The operation has read the token's record unused, and marks it next. */
  predicate AboutToMark(thread: Thread, token: Token) {
    thread.RotateMark? && thread.token == token
  }

  /** The event marks the token as used. */
  predicate Marks(sys: System, event: Event, token: Token) {
    event.Advance? && event.id in sys.threads && AboutToMark(sys.threads[event.id], token)
  }

  ghost predicate Retired(sys: System, token: Token) {
    Healthy(sys) && Sha256(token) in sys.used && forall id <- sys.threads :: !AboutToMark(sys.threads[id], token)
  }

  /** Whoever reads a used token's record now does not go on to mark it. */
  lemma UsedIsNotMarked(sys: System, thread: Thread, token: Token)
    requires ValueOk(sys, Sha256(token)) && Sha256(token) in sys.used && !AboutToMark(thread, token)
    ensures !AboutToMark(Command(sys.store, thread).1, token)
  {
  }

  lemma EventKeepsRetired(sys: System, event: Event, token: Token)
    requires Retired(sys, token) && Possible(sys, event)
    ensures Retired(Happen(sys, event), token)
  {
    EventHealthy(sys, event);
    assert ValueOk(sys, Sha256(token));
    if event.Advance? {
      UsedIsNotMarked(sys, sys.threads[event.id], token);
    }
  }

  lemma {:induction false} RunKeepsRetired(sys: System, events: seq<Event>, token: Token)
    requires Retired(sys, token) && PossibleRun(sys, events)
    ensures Retired(Unfold(sys, events), token)
    decreases |events|
  {
    if events != [] {
      EventKeepsRetired(sys, events[0], token);
      RunKeepsRetired(Happen(sys, events[0]), events[1..], token);
    }
  }

  ghost predicate MarkedOn(sys: System, events: seq<Event>, event: Event, token: Token) {
    PossibleRun(sys, events) && Marks(Unfold(sys, events), event, token)
  }

  /** In every reachable system, a token that has been marked used is marked again on no run if and only
      if no operation under way had read it before the mark. */
  lemma MarkedOnceExactly(start: Time, past: seq<Event>, token: Token)
    requires PossibleRun(Idle(start), past) && Sha256(token) in Unfold(Idle(start), past).used
    ensures var sys := Unfold(Idle(start), past);
            (forall events, event :: !MarkedOn(sys, events, event, token))
            <==> forall id <- sys.threads :: !AboutToMark(sys.threads[id], token)
  {
    var sys := Unfold(Idle(start), past);
    RunHealthy(Idle(start), past);
    if Retired(sys, token) {
      forall events, event ensures !MarkedOn(sys, events, event, token) {
        if PossibleRun(sys, events) {
          RunKeepsRetired(sys, events, token);
        }
      }
    } else {
      var id :| id in sys.threads && AboutToMark(sys.threads[id], token);
      assert MarkedOn(sys, [], Advance(id), token);
    }
  }

  /** A login completes; a first rotation reads its refresh token; a second one does so too. */
  function ReadTwice(user: UserId, client: Client, f: FamilyId, first: SessionPair, second: SessionPair,
                     third: SessionPair): seq<Event> {
    RotationHasRead(user, client, f, first, second) + [Spawn(2, Rotate(first.refresh, third)), Advance(2)]
  }

  lemma SecondRead(start: Time, user: UserId, client: Client, f: FamilyId, first: SessionPair, second: SessionPair,
                   third: SessionPair)
    requires FourTokens(first, second) && FourTokens(first, third) && FourTokens(second, third)
    ensures PossibleRun(Idle(start), ReadTwice(user, client, f, first, second, third))
    ensures var sys := Unfold(Idle(start), ReadTwice(user, client, f, first, second, third));
            var record := FreshRecord(user, f, Refresh, client, first.csrf);
            && sys.threads == map[0 := Finished(Issued(first)), 1 := RotateMark(first.refresh, record, second),
                                  2 := RotateMark(first.refresh, record, third)]
  {
    ReadAfterLogIn(start, user, client, f, first, second);
    var sys := Unfold(Idle(start), RotationHasRead(user, client, f, first, second));
    RotationReads(sys, 2, first.refresh, third);
    EventsJoin(Idle(start), RotationHasRead(user, client, f, first, second),
               [Spawn(2, Rotate(first.refresh, third)), Advance(2)]);
  }

  /** A token can rotate twice under interleaving: two rotations that both read it before either marks it
      both issue their pairs. */
  lemma RotatesTwice(start: Time, user: UserId, client: Client, f: FamilyId, first: SessionPair, second: SessionPair,
                     third: SessionPair)
    requires FourTokens(first, second) && FourTokens(first, third) && FourTokens(second, third)
    ensures PossibleRun(Idle(start), ReadTwice(user, client, f, first, second, third))
    ensures var sys := Unfold(Idle(start), ReadTwice(user, client, f, first, second, third));
            && PossibleRun(sys, Advances(1, 5) + Advances(2, 5))
            && Unfold(sys, Advances(1, 5) + Advances(2, 5)).threads
               == map[0 := Finished(Issued(first)), 1 := Finished(Issued(second)), 2 := Finished(Issued(third))]
  {
    SecondRead(start, user, client, f, first, second, third);
    BothFinish(Unfold(Idle(start), ReadTwice(user, client, f, first, second, third)), 1, 2);
  }

  lemma BothFinish(sys: System, i: nat, j: nat)
    requires i != j && i in sys.threads && sys.threads[i].RotateMark? && j in sys.threads && sys.threads[j].RotateMark?
    requires sys.threads[i].pair.access != sys.threads[i].pair.refresh
    requires sys.threads[j].pair.access != sys.threads[j].pair.refresh
    ensures PossibleRun(sys, Advances(i, 5) + Advances(j, 5))
    ensures Unfold(sys, Advances(i, 5) + Advances(j, 5)).threads
            == sys.threads[i := Finished(Issued(sys.threads[i].pair))][j := Finished(Issued(sys.threads[j].pair))]
  {
    AdvancesAlone(sys, i, 5);
    MarkedThenIssued(sys.store, sys.threads[i]);
    var next := Unfold(sys, Advances(i, 5));
    AdvancesAlone(next, j, 5);
    MarkedThenIssued(next.store, next.threads[j]);
    EventsJoin(sys, Advances(i, 5), Advances(j, 5));
  }
}
