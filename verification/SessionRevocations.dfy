/** Revocation while other operations overlap. In the atomic store a revoked family is gone for good; with
    single commands interleaved it can come back, or never have gone. Two runs that show so, and exactly
    when a revocation works: run without interruption, and under every interleaving. */
module SessionRevocations {
  import opened Options
  import opened KeyValueStore
  import opened SessionOperations
  import opened SessionRefinement
  import opened SessionTheorems
  import opened SessionInterleaving
  import opened SessionOverlaps

  // ---------- two runs ----------

  /** No record and no set of the family lies in the store, expired or not. */
  ghost predicate NothingStored(st: Store, f: FamilyId) {
    (forall key <- st.values :: st.values[key].familyId != f) && FamilyKey(f) !in st.sets
  }

  /** A login completes; a rotation reads its refresh token; the family is revoked from start to end. */
  function RevokedMeanwhile(user: UserId, client: Client, f: FamilyId, first: SessionPair, second: SessionPair)
    : seq<Event>
  {
    RotationHasRead(user, client, f, first, second) + ([Spawn(2, Revoke(f))] + Advances(2, 3))
  }

  /** Revoking a family just opened leaves nothing of it. */
  lemma RevokeAfterIssue(start: Time, user: UserId, client: Client, f: FamilyId, first: SessionPair)
    requires first.access != first.refresh
    ensures NothingStored(RevokeFamily(IssuePair(EmptyStore(start), user, f, client, first), f), f)
  {
  }

  lemma RevokeWhileRotating(start: Time, user: UserId, client: Client, f: FamilyId, first: SessionPair,
                            second: SessionPair)
    requires FourTokens(first, second)
    ensures PossibleRun(Idle(start), RevokedMeanwhile(user, client, f, first, second))
    ensures var sys := Unfold(Idle(start), RevokedMeanwhile(user, client, f, first, second));
            && NothingStored(sys.store, f) && f in sys.openedBy && 1 in sys.threads && 2 in sys.threads
            && sys.threads[1] == RotateMark(first.refresh, FreshRecord(user, f, Refresh, client, first.csrf), second)
            && sys.threads[2] == Finished(Done)
  {
    ReadAfterLogIn(start, user, client, f, first, second);
    var sys := Unfold(Idle(start), RotationHasRead(user, client, f, first, second));
    var spawn := Spawn(2, Revoke(f));
    AdvancesAlone(Happen(sys, spawn), 2, 3);
    SoloRevoke(sys.store, f, Done);
    RevokeAfterIssue(start, user, client, f, first);
    EventsUnfold(sys, spawn, Advances(2, 3));
    EventsJoin(Idle(start), RotationHasRead(user, client, f, first, second), [spawn] + Advances(2, 3));
  }

  /** Revocation is not permanent under interleaving. When a family is revoked between the read and the
      write of a rotation, nothing of it is stored; then the rotation marks and issues as if nothing had
      happened, and its new access token resolves. */
  lemma RevocationOvertaken(start: Time, user: UserId, client: Client, f: FamilyId, first: SessionPair,
                            second: SessionPair)
    requires FourTokens(first, second)
    ensures PossibleRun(Idle(start), RevokedMeanwhile(user, client, f, first, second))
    ensures var sys := Unfold(Idle(start), RevokedMeanwhile(user, client, f, first, second));
            && NothingStored(sys.store, f) && 2 in sys.threads && sys.threads[2] == Finished(Done)
            && PossibleRun(sys, Advances(1, 5))
            && GetUserIdForAccessToken(Unfold(sys, Advances(1, 5)).store, second.access).1 == Some(user)
  {
    RevokeWhileRotating(start, user, client, f, first, second);
    var sys := Unfold(Idle(start), RevokedMeanwhile(user, client, f, first, second));
    AdvancesAlone(sys, 1, 5);
    MarkedThenIssued(sys.store, sys.threads[1]);
  }

  /** A login completes; a revocation has read the family's set. */
  function RevocationHasRead(user: UserId, client: Client, f: FamilyId, first: SessionPair): seq<Event> {
    LoggedIn(user, client, f, first) + [Spawn(1, Revoke(f)), Advance(1)]
  }

  lemma SetAfterIssue(start: Time, user: UserId, client: Client, f: FamilyId, first: SessionPair)
    ensures var st := IssuePair(EmptyStore(start), user, f, client, first);
            st.Smembers(FamilyKey(f)) == (st, {Sha256(first.access), Sha256(first.refresh)})
  {
    var st := IssuePair(EmptyStore(start), user, f, client, first);
    assert st.sets[FamilyKey(f)] == {Sha256(first.access), Sha256(first.refresh)};
  }

  lemma SetIsRead(start: Time, user: UserId, client: Client, f: FamilyId, first: SessionPair)
    requires first.access != first.refresh
    ensures PossibleRun(Idle(start), RevocationHasRead(user, client, f, first))
    ensures var sys := Unfold(Idle(start), RevocationHasRead(user, client, f, first));
            && sys.store == IssuePair(EmptyStore(start), user, f, client, first)
            && sys.threads == map[0 := Finished(Issued(first)),
                                  1 := RevokeTokens(f, {Sha256(first.access), Sha256(first.refresh)}, Done)]
            && forall h <- sys.births :: h.token == first.access || h.token == first.refresh
  {
    LogInAlone(start, user, client, f, first);
    var sys := Unfold(Idle(start), LoggedIn(user, client, f, first));
    var spawn := Spawn(1, Revoke(f));
    SetAfterIssue(start, user, client, f, first);
    EventsUnfold(Happen(sys, spawn), Advance(1), []);
    EventsUnfold(sys, spawn, [Advance(1)]);
    assert [spawn] + [Advance(1)] == [spawn, Advance(1)] && [Advance(1)] + [] == [Advance(1)];
    EventsJoin(Idle(start), LoggedIn(user, client, f, first), [spawn, Advance(1)]);
  }

  lemma RotatesAfterIssue(start: Time, user: UserId, client: Client, f: FamilyId, first: SessionPair,
                          second: SessionPair)
    requires FourTokens(first, second)
    ensures var issued := IssuePair(EmptyStore(start), user, f, client, first);
            var (st, reply) := RotateRefreshToken(issued, first.refresh, second);
            reply == Issued(second) && GetUserIdForAccessToken(st, second.access).1 == Some(user)
  {
  }

  lemma DeletionsSpare(st: Store, f: FamilyId, members: set<TokenHash>, token: Token)
    requires Sha256(token) !in members
    ensures var (next, reply) := Solo(st, RevokeTokens(f, members, Done));
            reply == Done && GetUserIdForAccessToken(next, token).1 == GetUserIdForAccessToken(st, token).1
  {
    var (st1, t1) := Command(st, RevokeTokens(f, members, Done));
    var (st2, t2) := Command(st1, t1);
    assert Solo(st, RevokeTokens(f, members, Done)) == Solo(st1, t1) == Solo(st2, t2);
  }

  function RotatedAlone(id: nat, token: Token, pair: SessionPair): seq<Event> {
    [Spawn(id, Rotate(token, pair))] + Advances(id, 6)
  }

  lemma RotatesAlone(sys: System, id: nat, token: Token, pair: SessionPair)
    requires Possible(sys, Spawn(id, Rotate(token, pair)))
    ensures PossibleRun(sys, RotatedAlone(id, token, pair))
    ensures var next := Unfold(sys, RotatedAlone(id, token, pair));
            && next.store == RotateRefreshToken(sys.store, token, pair).0
            && next.threads == sys.threads[id := Finished(RotateRefreshToken(sys.store, token, pair).1)]
  {
    var spawn := Spawn(id, Rotate(token, pair));
    AdvancesAlone(Happen(sys, spawn), id, 6);
    SoloIsAtomic(sys.store, Rotate(token, pair));
    EventsUnfold(sys, spawn, Advances(id, 6));
  }

  /** A rotation then runs from start to end, and the revocation deletes what it had read. */
  function RotatedMeanwhile(first: SessionPair, second: SessionPair): seq<Event> {
    RotatedAlone(2, first.refresh, second) + Advances(1, 2)
  }

  /** The same from any system in which a revocation is about to delete hashes that do not include the new
      access token's. */
  lemma OutrunFrom(sys: System, f: FamilyId, members: set<TokenHash>, first: SessionPair, second: SessionPair)
    requires 1 in sys.threads && sys.threads[1] == RevokeTokens(f, members, Done)
    requires Possible(sys, Spawn(2, Rotate(first.refresh, second))) && Sha256(second.access) !in members
    ensures PossibleRun(sys, RotatedMeanwhile(first, second))
    ensures var end := Unfold(sys, RotatedMeanwhile(first, second));
            var (st, reply) := RotateRefreshToken(sys.store, first.refresh, second);
            && end.threads == sys.threads[2 := Finished(reply)][1 := Finished(Done)]
            && GetUserIdForAccessToken(end.store, second.access).1 == GetUserIdForAccessToken(st, second.access).1
  {
    RotatesAlone(sys, 2, first.refresh, second);
    var rotated := Unfold(sys, RotatedAlone(2, first.refresh, second));
    AdvancesAlone(rotated, 1, 2);
    DeletionsSpare(rotated.store, f, members, second.access);
    EventsJoin(sys, RotatedAlone(2, first.refresh, second), Advances(1, 2));
  }

  lemma RotationWouldIssue(start: Time, user: UserId, client: Client, f: FamilyId, first: SessionPair,
                           second: SessionPair)
    requires FourTokens(first, second)
    ensures PossibleRun(Idle(start), RevocationHasRead(user, client, f, first))
    ensures var sys := Unfold(Idle(start), RevocationHasRead(user, client, f, first));
            var (st, reply) := RotateRefreshToken(sys.store, first.refresh, second);
            reply == Issued(second) && GetUserIdForAccessToken(st, second.access).1 == Some(user)
  {
    SetIsRead(start, user, client, f, first);
    RotatesAfterIssue(start, user, client, f, first, second);
  }

  lemma RotationMayBegin(start: Time, user: UserId, client: Client, f: FamilyId, first: SessionPair,
                         second: SessionPair)
    requires FourTokens(first, second)
    ensures PossibleRun(Idle(start), RevocationHasRead(user, client, f, first))
    ensures var sys := Unfold(Idle(start), RevocationHasRead(user, client, f, first));
            && Possible(sys, Spawn(2, Rotate(first.refresh, second)))
            && sys.threads == map[0 := Finished(Issued(first)),
                                  1 := RevokeTokens(f, {Sha256(first.access), Sha256(first.refresh)}, Done)]
  {
    SetIsRead(start, user, client, f, first);
  }

  /** A revocation can finish and leave the family alive. A rotation between its read of the set and its
      deletions issues a pair that the revocation has not read; when every operation has finished, the
      new access token resolves. */
  lemma RevocationOutrun(start: Time, user: UserId, client: Client, f: FamilyId, first: SessionPair,
                         second: SessionPair)
    requires FourTokens(first, second)
    ensures PossibleRun(Idle(start), RevocationHasRead(user, client, f, first))
    ensures var sys := Unfold(Idle(start), RevocationHasRead(user, client, f, first));
            && PossibleRun(sys, RotatedMeanwhile(first, second))
            && var end := Unfold(sys, RotatedMeanwhile(first, second));
               && end.threads == map[0 := Finished(Issued(first)), 1 := Finished(Done), 2 := Finished(Issued(second))]
               && GetUserIdForAccessToken(end.store, second.access).1 == Some(user)
  {
    RotationMayBegin(start, user, client, f, first, second);
    RotationWouldIssue(start, user, client, f, first, second);
    OutrunFrom(Unfold(Idle(start), RevocationHasRead(user, client, f, first)), f,
               {Sha256(first.access), Sha256(first.refresh)}, first, second);
  }

  // ---------- the store of an interleaved run ----------

  /** Records lie under token keys and sets under family keys; every record has a deadline; no deadline is
      further off than a refresh token's time to live. */
  ghost predicate Orderly(st: Store) {
    && (forall key <- st.values :: key.TokenKey? && key in st.expiresAt)
    && (forall key <- st.sets :: key.FamilyKey?)
    && (forall key <- st.expiresAt :: st.expiresAt[key] <= st.now + REFRESH_TTL_SECONDS)
  }

  lemma CommandKeepsOrderly(st: Store, thread: Thread)
    requires Orderly(st)
    ensures Orderly(Command(st, thread).0)
  {
  }

  lemma EventKeepsOrderly(sys: System, event: Event)
    requires Orderly(sys.store) && Possible(sys, event)
    ensures Orderly(Happen(sys, event).store)
  {
    if event.Advance? {
      CommandKeepsOrderly(sys.store, sys.threads[event.id]);
    }
  }

  lemma {:induction false} RunKeepsOrderly(sys: System, events: seq<Event>)
    requires Orderly(sys.store) && PossibleRun(sys, events)
    ensures Orderly(Unfold(sys, events).store)
    decreases |events|
  {
    if events != [] {
      EventKeepsOrderly(sys, events[0]);
      RunKeepsOrderly(Happen(sys, events[0]), events[1..]);
    }
  }

  /** A record of the family is visible under this hash. */
  predicate Live(st: Store, f: FamilyId, h: TokenHash) {
    var slot := Visible(st, TokenKey(h));
    slot.Record? && slot.record.familyId == f
  }

  /** The family's set is visible and lists the hash. */
  predicate Listed(st: Store, f: FamilyId, h: TokenHash) {
    var index := Visible(st, FamilyKey(f));
    index.Members? && h in index.hashes
  }

  /** The operation's next command stores something of the family. */
  predicate Writes(thread: Thread, f: FamilyId) {
    match thread
    case IssueAccess(_, family, _, _) => family == f
    case IssueRefresh(_, family, _, _) => family == f
    case IssueIndex(family, _) => family == f
    case RotateMark(_, record, _) => record.familyId == f
    case _ => false
  }

  ghost predicate Unwritten(sys: System, f: FamilyId) {
    forall id <- sys.threads :: !Writes(sys.threads[id], f)
  }

  // ---------- what stays gone ----------

  /** The family has no set, and all its records have expired. */
  ghost predicate Faded(st: Store, f: FamilyId) {
    && FamilyKey(f) !in st.sets
    && forall key <- st.values :: st.values[key].familyId == f ==> st.IsExpired(key)
  }

  /** And nobody is about to write to it. */
  ghost predicate Gone(sys: System, f: FamilyId) {
    Orderly(sys.store) && f in sys.openedBy && Unwritten(sys, f) && Faded(sys.store, f)
  }

  lemma FadedShowsNothing(st: Store, f: FamilyId)
    requires Faded(st, f)
    ensures NothingShown(st, f)
  {
  }

  lemma CommandKeepsFaded(st: Store, thread: Thread, f: FamilyId)
    requires Orderly(st) && Faded(st, f) && !Writes(thread, f)
    ensures Faded(Command(st, thread).0, f) && !Writes(Command(st, thread).1, f)
  {
  }

  lemma EventKeepsGone(sys: System, event: Event, f: FamilyId)
    requires Gone(sys, f) && Possible(sys, event)
    ensures Gone(Happen(sys, event), f)
  {
    EventKeepsOrderly(sys, event);
    if event.Advance? {
      CommandKeepsFaded(sys.store, sys.threads[event.id], f);
    }
  }

  lemma {:induction false} RunKeepsGone(sys: System, events: seq<Event>, f: FamilyId)
    requires Gone(sys, f) && PossibleRun(sys, events)
    ensures Gone(Unfold(sys, events), f)
    decreases |events|
  {
    if events != [] {
      EventKeepsGone(sys, events[0], f);
      RunKeepsGone(Happen(sys, events[0]), events[1..], f);
    }
  }

  /** What the writer does next until something of the family is visible. The deadline of a set comes one
      command after the set. */
  function WriteRun(thread: Thread, id: nat): seq<Event> {
    if thread.IssueIndex? then Advances(id, 2) else Advances(id, 1)
  }

  lemma WriterShows(sys: System, id: nat, f: FamilyId)
    requires Orderly(sys.store) && id in sys.threads && Writes(sys.threads[id], f)
    ensures PossibleRun(sys, WriteRun(sys.threads[id], id))
    ensures var next := Unfold(sys, WriteRun(sys.threads[id], id));
            && !NothingShown(next.store, f)
            && forall other <- sys.threads :: other != id ==>
                 other in next.threads && next.threads[other] == sys.threads[other]
  {
    var thread := sys.threads[id];
    if thread.IssueIndex? {
      AdvancesAlone(sys, id, 2);
      IndexShows(sys.store, f, thread.pair);
    } else {
      assert Advances(id, 1) == [Advance(id)] + Advances(id, 0) && Advances(id, 0) == [];
      EventsUnfold(sys, Advance(id), []);
      CommandShows(sys.store, thread, f);
    }
  }

  lemma CommandShows(st: Store, thread: Thread, f: FamilyId)
    requires Writes(thread, f) && !thread.IssueIndex?
    ensures !NothingShown(Command(st, thread).0, f)
  {
    var next := Command(st, thread).0;
    match thread
    case IssueAccess(_, _, _, pair) => assert ShowsFamily(next, TokenKeyOf(pair.access), f);
    case IssueRefresh(_, _, _, pair) => assert ShowsFamily(next, TokenKeyOf(pair.refresh), f);
    case RotateMark(token, _, _) => assert ShowsFamily(next, TokenKeyOf(token), f);
  }

  lemma IndexShows(st: Store, f: FamilyId, pair: SessionPair)
    requires Orderly(st)
    ensures !NothingShown(Solo(st, IssueIndex(f, pair)).0, f)
  {
    var (st1, t1) := Command(st, IssueIndex(f, pair));
    var (st2, t2) := Command(st1, t1);
    assert Solo(st, IssueIndex(f, pair)) == Solo(st1, t1) == Solo(st2, t2);
    assert FamilyKey(f) !in st.values;
    assert ShowsFamily(st2, FamilyKey(f), f);
  }

  // ---------- a revocation run alone ----------

  lemma RevokesAlone(sys: System, id: nat, f: FamilyId)
    requires id in sys.threads && sys.threads[id].RevokeRead? && sys.threads[id].family == f
    ensures PossibleRun(sys, Advances(id, 3))
    ensures var next := Unfold(sys, Advances(id, 3));
            && next.store == RevokeFamily(sys.store, f) && next.openedBy == sys.openedBy
            && next.threads == sys.threads[id := Finished(sys.threads[id].outcome)]
  {
    AdvancesAlone(sys, id, 3);
    SoloRevoke(sys.store, f, sys.threads[id].outcome);
  }

  /** A revocation run alone leaves exactly the records that were visible and not listed. */
  lemma RevocationLeaves(st: Store, f: FamilyId, h: TokenHash)
    requires Orderly(st)
    ensures FamilyKey(f) !in RevokeFamily(st, f).sets
    ensures Live(RevokeFamily(st, f), f, h) <==> Live(st, f, h) && !Listed(st, f, h)
  {
    RevokeShows(st, f, TokenKey(h));
    RevokeDeletes(st, f);
  }

  lemma GoneAlone(sys: System, id: nat, f: FamilyId)
    requires Orderly(sys.store) && f in sys.openedBy && Unwritten(sys, f)
    requires id in sys.threads && sys.threads[id].RevokeRead? && sys.threads[id].family == f
    requires forall h :: Live(sys.store, f, h) ==> Listed(sys.store, f, h)
    ensures PossibleRun(sys, Advances(id, 3)) && Gone(Unfold(sys, Advances(id, 3)), f)
  {
    RevokesAlone(sys, id, f);
    RunKeepsOrderly(sys, Advances(id, 3));
    var next := Unfold(sys, Advances(id, 3));
    RevocationLeaves(sys.store, f, Sha256(BLANK));
    forall key <- next.store.values ensures next.store.values[key].familyId == f ==> next.store.IsExpired(key) {
      RevocationLeaves(sys.store, f, key.hash);
    }
  }

  /** The run leads to something of the family being visible. */
  ghost predicate ShownAfter(sys: System, events: seq<Event>, f: FamilyId) {
    PossibleRun(sys, events) && !NothingShown(Unfold(sys, events).store, f)
  }

  /** Revocation without interruption. In any reachable system let a revocation be about to read the
      family's set, whether it was asked for, came from a logout or from detected reuse, and let it run
      without interruption. Then nothing of the family is visible on any run that follows, if and only if
      every live record of the family was listed in its live set, and no operation under way was about to
      write to the family. */
  lemma RevocationAloneExactly(start: Time, past: seq<Event>, id: nat, f: FamilyId)
    requires PossibleRun(Idle(start), past)
    requires var sys := Unfold(Idle(start), past);
             f in sys.openedBy && id in sys.threads && sys.threads[id].RevokeRead? && sys.threads[id].family == f
    ensures PossibleRun(Unfold(Idle(start), past), Advances(id, 3))
    ensures var sys := Unfold(Idle(start), past);
            (forall events :: !ShownAfter(Unfold(sys, Advances(id, 3)), events, f))
            <==> (forall h :: Live(sys.store, f, h) ==> Listed(sys.store, f, h)) && Unwritten(sys, f)
  {
    var sys := Unfold(Idle(start), past);
    RunKeepsOrderly(Idle(start), past);
    RevokesAlone(sys, id, f);
    var after := Unfold(sys, Advances(id, 3));
    RunKeepsOrderly(sys, Advances(id, 3));
    if i :| i in sys.threads && Writes(sys.threads[i], f) {
      WriterShows(after, i, f);
      assert ShownAfter(after, WriteRun(sys.threads[i], i), f);
    } else if h :| Live(sys.store, f, h) && !Listed(sys.store, f, h) {
      RevocationLeaves(sys.store, f, h);
      assert ShowsFamily(after.store, TokenKey(h), f) && ShownAfter(after, [], f);
    } else {
      GoneAlone(sys, id, f);
      forall events ensures !ShownAfter(after, events, f) {
        if PossibleRun(after, events) {
          RunKeepsGone(after, events, f);
          FadedShowsNothing(Unfold(after, events).store, f);
        }
      }
    }
  }

  // ---------- a revocation under every interleaving ----------

  /** This live record can no longer be rotated, and its set is live and outlives it. */
  ghost predicate Settled(st: Store, f: FamilyId, h: TokenHash)
    requires Live(st, f, h)
  {
    var slot, index := Visible(st, TokenKey(h)), Visible(st, FamilyKey(f));
    && !(slot.record.kind.Refresh? && !slot.record.used)
    && Listed(st, f, h)
    && (index.deadline.Some? ==> slot.deadline.Some? && slot.deadline.value <= index.deadline.value)
  }

  /** A revocation of the family under way that will drop the set but not this record. */
  predicate Spares(thread: Thread, f: FamilyId, h: TokenHash) {
    match thread
    case RevokeTokens(family, members, _) => family == f && h !in members
    case RevokeSet(family, _) => family == f
    case _ => false
  }

  /** Nobody is about to write to the family; none of its live records can be rotated any more; each is in
      its live set, which outlives it; and no revocation under way has read too little of the set. */
  ghost predicate Undisturbed(sys: System, f: FamilyId) {
    && Unwritten(sys, f)
    && (forall h | Live(sys.store, f, h) :: Settled(sys.store, f, h))
    && (forall h | Live(sys.store, f, h) :: forall id <- sys.threads :: !Spares(sys.threads[id], f, h))
  }

  lemma CommandKeepsRecord(st: Store, thread: Thread, f: FamilyId, h: TokenHash)
    requires Orderly(st) && !Writes(thread, f) && Live(Command(st, thread).0, f, h)
    ensures Live(st, f, h) && Visible(Command(st, thread).0, TokenKey(h)) == Visible(st, TokenKey(h))
  {
  }

  lemma CommandKeepsIndex(st: Store, thread: Thread, f: FamilyId, h: TokenHash)
    requires Orderly(st) && !Writes(thread, f) && Live(st, f, h) && Settled(st, f, h) && !Spares(thread, f, h)
    ensures var index, index' := Visible(st, FamilyKey(f)), Visible(Command(st, thread).0, FamilyKey(f));
            && index'.Members? && index'.hashes == index.hashes
            && (index'.deadline == index.deadline || index'.deadline == Some(st.now + REFRESH_TTL_SECONDS))
  {
  }

  lemma CommandKeepsSettled(st: Store, thread: Thread, f: FamilyId, h: TokenHash)
    requires Orderly(st) && !Writes(thread, f) && !Spares(thread, f, h)
    requires Live(st, f, h) ==> Settled(st, f, h)
    ensures var (next, thread') := Command(st, thread);
            Live(next, f, h) ==> Live(st, f, h) && Settled(next, f, h) && !Spares(thread', f, h)
  {
    if Live(Command(st, thread).0, f, h) {
      CommandKeepsRecord(st, thread, f, h);
      CommandKeepsIndex(st, thread, f, h);
      CommandSparesNone(st, thread, f, h);
    }
  }

  lemma CommandSparesNone(st: Store, thread: Thread, f: FamilyId, h: TokenHash)
    requires Listed(st, f, h) && !Spares(thread, f, h) && Live(Command(st, thread).0, f, h) && Orderly(st)
    ensures !Spares(Command(st, thread).1, f, h)
  {
  }

  lemma CommandKeepsUnwritten(st: Store, thread: Thread, f: FamilyId)
    requires !Writes(thread, f) && forall h | Live(st, f, h) :: Settled(st, f, h)
    ensures !Writes(Command(st, thread).1, f)
  {
    if thread.RotateRead? && Live(st, f, Sha256(thread.token)) {
      assert Settled(st, f, Sha256(thread.token));
    }
  }

  /** The revocation is on its way in an undisturbed system, or has done its work. */
  ghost predicate OnTrack(sys: System, id: nat, f: FamilyId) {
    && id in sys.threads && Orderly(sys.store) && f in sys.openedBy
    && (Gone(sys, f) || (Undisturbed(sys, f) && Revokes(sys.threads[id], f)))
  }

  predicate Revokes(thread: Thread, f: FamilyId) {
    match thread
    case RevokeRead(family, _) => family == f
    case RevokeTokens(family, _, _) => family == f
    case RevokeSet(family, _) => family == f
    case _ => false
  }

  lemma AdvanceKeepsUndisturbed(sys: System, id: nat, f: FamilyId)
    requires Orderly(sys.store) && Undisturbed(sys, f) && id in sys.threads
    ensures Undisturbed(Happen(sys, Advance(id)), f)
  {
    var next := Happen(sys, Advance(id));
    CommandKeepsUnwritten(sys.store, sys.threads[id], f);
    forall h | Live(next.store, f, h)
      ensures Settled(next.store, f, h)
      ensures forall other <- next.threads :: !Spares(next.threads[other], f, h)
    {
      CommandKeepsRecord(sys.store, sys.threads[id], f, h);
      CommandKeepsSettled(sys.store, sys.threads[id], f, h);
    }
  }

  /** Its last command takes the set away; by then no record of the family is live. */
  lemma LastCommandFades(sys: System, id: nat, f: FamilyId)
    requires Orderly(sys.store) && f in sys.openedBy && Undisturbed(sys, f)
    requires id in sys.threads && sys.threads[id].RevokeSet? && sys.threads[id].family == f
    ensures Gone(Happen(sys, Advance(id)), f)
  {
    var next := Happen(sys, Advance(id));
    EventKeepsOrderly(sys, Advance(id));
    forall key <- next.store.values ensures next.store.values[key].familyId == f ==> next.store.IsExpired(key) {
      assert !Live(sys.store, f, key.hash);
    }
  }

  lemma AdvanceKeepsTrack(sys: System, id: nat, f: FamilyId, other: nat)
    requires OnTrack(sys, id, f) && other in sys.threads
    ensures OnTrack(Happen(sys, Advance(other)), id, f)
  {
    EventKeepsOrderly(sys, Advance(other));
    if Gone(sys, f) {
      EventKeepsGone(sys, Advance(other), f);
    } else if other == id && sys.threads[id].RevokeSet? {
      LastCommandFades(sys, id, f);
    } else {
      AdvanceKeepsUndisturbed(sys, other, f);
    }
  }

  lemma WaitKeepsUndisturbed(sys: System, seconds: Time, f: FamilyId)
    requires Orderly(sys.store) && Undisturbed(sys, f) && seconds >= 0.0
    ensures Undisturbed(Happen(sys, Wait(seconds)), f)
  {
    var next := Happen(sys, Wait(seconds));
    forall h | Live(next.store, f, h)
      ensures Settled(next.store, f, h)
      ensures forall id <- next.threads :: !Spares(next.threads[id], f, h)
    {
      assert Live(sys.store, f, h) && Settled(sys.store, f, h);
    }
  }

  lemma SpawnKeepsUndisturbed(sys: System, id: nat, op: Operation, f: FamilyId)
    requires Undisturbed(sys, f) && f in sys.openedBy && Possible(sys, Spawn(id, op))
    ensures Undisturbed(Happen(sys, Spawn(id, op)), f)
  {
    var next := Happen(sys, Spawn(id, op));
    forall h | Live(next.store, f, h)
      ensures Settled(next.store, f, h)
      ensures forall other <- next.threads :: !Spares(next.threads[other], f, h)
    {
      assert Live(sys.store, f, h) && Settled(sys.store, f, h);
    }
  }

  lemma EventKeepsTrack(sys: System, event: Event, id: nat, f: FamilyId)
    requires OnTrack(sys, id, f) && Possible(sys, event)
    ensures OnTrack(Happen(sys, event), id, f)
  {
    if event.Advance? {
      AdvanceKeepsTrack(sys, id, f, event.id);
    } else {
      EventKeepsOrderly(sys, event);
      if Gone(sys, f) {
        EventKeepsGone(sys, event, f);
      } else if event.Wait? {
        WaitKeepsUndisturbed(sys, event.seconds, f);
      } else {
        SpawnKeepsUndisturbed(sys, event.id, event.op, f);
      }
    }
  }

  lemma {:induction false} RunKeepsTrack(sys: System, events: seq<Event>, id: nat, f: FamilyId)
    requires OnTrack(sys, id, f) && PossibleRun(sys, events)
    ensures OnTrack(Unfold(sys, events), id, f)
    decreases |events|
  {
    if events != [] {
      EventKeepsTrack(sys, events[0], id, f);
      RunKeepsTrack(Happen(sys, events[0]), events[1..], id, f);
    }
  }

  // ---------- every disturbance can make it fail ----------

  /** On this run the revocation finishes, and something of the family is visible. */
  ghost predicate Fails(sys: System, events: seq<Event>, id: nat, f: FamilyId) {
    && PossibleRun(sys, events)
    && var end := Unfold(sys, events);
       id in end.threads && end.threads[id].Finished? && !NothingShown(end.store, f)
  }

  lemma FailsLater(sys: System, before: seq<Event>, after: seq<Event>, id: nat, f: FamilyId)
    requires PossibleRun(sys, before) && Fails(Unfold(sys, before), after, id, f)
    ensures Fails(sys, before + after, id, f)
  {
    EventsJoin(sys, before, after);
  }

  ghost predicate Starts(sys: System, id: nat, f: FamilyId) {
    Orderly(sys.store) && id in sys.threads && sys.threads[id].RevokeRead? && sys.threads[id].family == f
  }

  lemma UnlistedSurvives(sys: System, id: nat, f: FamilyId, h: TokenHash)
    requires Starts(sys, id, f) && Live(sys.store, f, h) && !Listed(sys.store, f, h)
    ensures Fails(sys, Advances(id, 3), id, f)
  {
    RevokesAlone(sys, id, f);
    RevocationLeaves(sys.store, f, h);
    assert ShowsFamily(Unfold(sys, Advances(id, 3)).store, TokenKey(h), f);
  }

  lemma WriterOvertakes(sys: System, id: nat, f: FamilyId, i: nat)
    requires Starts(sys, id, f) && i in sys.threads && Writes(sys.threads[i], f)
    ensures Fails(sys, Advances(id, 3) + WriteRun(sys.threads[i], i), id, f)
  {
    RevokesAlone(sys, id, f);
    RunKeepsOrderly(sys, Advances(id, 3));
    WriterShows(Unfold(sys, Advances(id, 3)), i, f);
    FailsLater(sys, Advances(id, 3), WriteRun(sys.threads[i], i), id, f);
  }

  lemma SetExpiresFirst(sys: System, id: nat, f: FamilyId, h: TokenHash)
    requires Starts(sys, id, f) && Live(sys.store, f, h) && Listed(sys.store, f, h)
    requires var index := Visible(sys.store, FamilyKey(f));
             index.deadline.Some? && index.deadline.value < Visible(sys.store, TokenKey(h)).deadline.value
    ensures exists events :: Fails(sys, events, id, f)
  {
    var wait := Wait(Visible(sys.store, FamilyKey(f)).deadline.value - sys.store.now);
    EventsUnfold(sys, wait, []);
    assert [wait] + [] == [wait];
    UnlistedSurvives(Happen(sys, wait), id, f, h);
    FailsLater(sys, [wait], Advances(id, 3), id, f);
  }

  lemma SparerOvertakes(sys: System, id: nat, f: FamilyId, i: nat, h: TokenHash)
    requires Starts(sys, id, f) && Live(sys.store, f, h) && i in sys.threads && Spares(sys.threads[i], f, h)
    ensures exists events :: Fails(sys, events, id, f)
  {
    AdvancesAlone(sys, i, 2);
    SparerDropsSet(sys.store, sys.threads[i], f, h);
    RunKeepsOrderly(sys, Advances(i, 2));
    UnlistedSurvives(Unfold(sys, Advances(i, 2)), id, f, h);
    FailsLater(sys, Advances(i, 2), Advances(id, 3), id, f);
  }

  lemma SparerDropsSet(st: Store, thread: Thread, f: FamilyId, h: TokenHash)
    requires Spares(thread, f, h) && Live(st, f, h)
    ensures Live(Solo(st, thread).0, f, h) && !Listed(Solo(st, thread).0, f, h)
  {
    var (st1, t1) := Command(st, thread);
    var (st2, t2) := Command(st1, t1);
    assert Solo(st, thread) == Solo(st1, t1) == Solo(st2, t2);
  }

  lemma RotationOvertakes(sys: System, id: nat, f: FamilyId, h: TokenHash)
    requires Starts(sys, id, f) && Live(sys.store, f, h)
    requires var record := Visible(sys.store, TokenKey(h)).record; record.kind.Refresh? && !record.used
    ensures exists events :: Fails(sys, events, id, f)
  {
    var j := FreshNumber(sys.threads.Keys);
    var access := FreshNumber(Taken(sys));
    var refresh := FreshNumber(Taken(sys) + {access});
    var pair := SessionPair(access, refresh, BLANK);
    assert h == Sha256(h.token);
    RotationReads(sys, j, h.token, pair);
    var read := [Spawn(j, Rotate(h.token, pair)), Advance(j)];
    RunKeepsOrderly(sys, read);
    var next := Unfold(sys, read);
    WriterOvertakes(next, id, f, j);
    FailsLater(sys, read, Advances(id, 3) + WriteRun(next.threads[j], j), id, f);
  }

  /** Every token of the system so far. */
  ghost function Taken(sys: System): set<Token> {
    (set h <- sys.births :: h.token) + set id <- sys.threads, t <- Pending(sys.threads[id]) :: t
  }

  lemma {:induction false} FreshNumber(taken: set<nat>) returns (n: nat)
    ensures n !in taken
    ensures forall m <- taken :: m < n
    decreases |taken|
  {
    if taken == {} {
      n := 0;
    } else {
      var m :| m in taken;
      var k := FreshNumber(taken - {m});
      n := if k > m then k else m + 1;
      assert forall x <- taken :: x == m || x in taken - {m};
    }
  }

  /** Revocation under every interleaving. In any reachable system let a revocation be about to read the
      family's set. On every run from there, with whatever other operations, nothing of the family is visible
      once the revocation has finished, if and only if the system is undisturbed. So it is promised of no
      family that still has a live rotatable token: a rotation may run meanwhile. */
  lemma RevocationExactly(start: Time, past: seq<Event>, id: nat, f: FamilyId)
    requires PossibleRun(Idle(start), past)
    requires var sys := Unfold(Idle(start), past);
             f in sys.openedBy && id in sys.threads && sys.threads[id].RevokeRead? && sys.threads[id].family == f
    ensures var sys := Unfold(Idle(start), past);
            (forall events :: !Fails(sys, events, id, f)) <==> Undisturbed(sys, f)
  {
    var sys := Unfold(Idle(start), past);
    RunKeepsOrderly(Idle(start), past);
    if Undisturbed(sys, f) {
      forall events ensures !Fails(sys, events, id, f) {
        if PossibleRun(sys, events) {
          RunKeepsTrack(sys, events, id, f);
          if Gone(Unfold(sys, events), f) {
            FadedShowsNothing(Unfold(sys, events).store, f);
          }
        }
      }
    } else {
      DisturbedFails(sys, id, f);
    }
  }

  lemma DisturbedFails(sys: System, id: nat, f: FamilyId)
    requires Starts(sys, id, f) && !Undisturbed(sys, f)
    ensures exists events :: Fails(sys, events, id, f)
  {
    if i :| i in sys.threads && Writes(sys.threads[i], f) {
      WriterOvertakes(sys, id, f, i);
    } else if h :| Live(sys.store, f, h) && !Settled(sys.store, f, h) {
      if !Listed(sys.store, f, h) {
        UnlistedSurvives(sys, id, f, h);
      } else if Visible(sys.store, TokenKey(h)).record.kind.Refresh? && !Visible(sys.store, TokenKey(h)).record.used {
        RotationOvertakes(sys, id, f, h);
      } else {
        SetExpiresFirst(sys, id, f, h);
      }
    } else {
      var h, i :| Live(sys.store, f, h) && i in sys.threads && Spares(sys.threads[i], f, h);
      SparerOvertakes(sys, id, f, i, h);
    }
  }
}
