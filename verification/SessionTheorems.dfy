/** What holds in every reachable state and over whole runs of the session store.

    `Agrees(st, led)` holds of every reachable state: the empty store agrees with the empty history
    (EmptyAgrees) and every run keeps it (RunRefines). */
module SessionTheorems {
  import opened Options
  import opened KeyValueStore
  import opened SessionOperations
  import opened SessionLedger
  import opened SessionRefinement
  import opened SessionRuns

  // ---------- what a token means ----------

  /** `token` is the `kind` token of the `i`-th pair of family `f`. */
  ghost predicate IssuedAs(led: Ledger, token: Token, kind: TokenKind, f: FamilyId, i: nat) {
    && f in led.logins && i < |led.logins[f].chain|
    && var pair := led.logins[f].chain[i].pair;
       token == if kind.Access? then pair.access else pair.refresh
  }

  /** An access token resolves to `user` exactly when it was issued in a family opened by a login of
      `user`, less than fifteen minutes ago, and that family has not been revoked. */
  lemma AccessTokenMeansLogin(start: Time, ops: seq<Operation>, token: Token, user: UserId)
    requires AdmissibleRun(NoHistory(start), ops)
    ensures var st := Run(EmptyStore(start), ops).0;
            var led := SpecRun(NoHistory(start), ops).0;
            GetUserIdForAccessToken(st, token).1 == Some(user)
            <==> exists f, i: nat :: IssuedAs(led, token, Access, f, i) && led.logins[f].user == user
                                && st.now < led.logins[f].chain[i].at + ACCESS_TTL_SECONDS && f !in led.revoked
  {
    EmptyAgrees(start);
    RunRefines(EmptyStore(start), NoHistory(start), ops);
    AccessTokenMeansLoginNow(Run(EmptyStore(start), ops).0, SpecRun(NoHistory(start), ops).0, token, user);
  }

  lemma AccessTokenMeansLoginNow(st: Store, led: Ledger, token: Token, user: UserId)
    requires Agrees(st, led)
    ensures GetUserIdForAccessToken(st, token).1 == Some(user)
            <==> exists f, i: nat :: IssuedAs(led, token, Access, f, i) && led.logins[f].user == user
                                && st.now < led.logins[f].chain[i].at + ACCESS_TTL_SECONDS && f !in led.revoked
  {
    ReadsAgree(st, led, token);
    if token in led.places {
      var place := led.places[token];
      assert led.PlaceSound(token, place);
      if place.kind.Access? {
        assert IssuedAs(led, token, Access, place.family, place.index);
      }
    }
    forall f, i: nat | IssuedAs(led, token, Access, f, i)
      ensures token in led.places && led.places[token] == Place(f, i, Access)
    {
      assert led.ChainSound(f, led.logins[f].chain);
    }
  }

  /** The CSRF value can be read through either token of a live pair, and is the one issued with it. */
  lemma CsrfTokenMeansPair(st: Store, led: Ledger, token: Token, csrf: Token)
    requires Agrees(st, led)
    ensures GetCsrfTokenForAccessToken(st, token).1 == Some(csrf)
            <==> exists f, i: nat, kind :: IssuedAs(led, token, kind, f, i) && led.logins[f].chain[i].pair.csrf == csrf
                                      && st.now < led.Deadline(Place(f, i, kind)) && f !in led.revoked
  {
    ReadsAgree(st, led, token);
    if token in led.places {
      var place := led.places[token];
      assert led.PlaceSound(token, place);
      assert IssuedAs(led, token, place.kind, place.family, place.index);
    }
    forall f, i: nat, kind | IssuedAs(led, token, kind, f, i)
      ensures token in led.places && led.places[token] == Place(f, i, kind)
    {
      assert led.ChainSound(f, led.logins[f].chain);
    }
  }

  // ---------- the index ----------

  /** A record of family `f` is visible under this key, or the key is the family's own set. */
  ghost predicate ShowsFamily(st: Store, key: Key, f: FamilyId) {
    match Visible(st, key)
    case Absent => false
    case Record(record, _) => record.familyId == f
    case Members(_, _) => key == FamilyKey(f)
  }

  /** Nothing of family `f` is visible: no record, no set. */
  ghost predicate NothingShown(st: Store, f: FamilyId) {
    forall key :: !ShowsFamily(st, key, f)
  }

  /** Every live record is listed in its own family's live set, which outlives it. */
  lemma LiveRecordIsIndexed(st: Store, led: Ledger, h: TokenHash)
    requires Agrees(st, led) && Visible(st, TokenKey(h)).Record?
    ensures var slot := Visible(st, TokenKey(h));
            var index := Visible(st, FamilyKey(slot.record.familyId));
            && index.Members? && h in index.hashes
            && slot.deadline.Some? && index.deadline.Some? && slot.deadline.value <= index.deadline.value
  {
    assert Visible(st, TokenKey(h)) == led.Render(TokenKey(h));
    LiveTokenHasLiveFamily(led, h.token);
    var f := led.places[h.token].family;
    assert Visible(st, FamilyKey(f)) == led.Render(FamilyKey(f));
    assert h == Sha256(h.token);
  }

  /** No set in the store, expired or not, lists a hash issued under another family; so two families'
      sets never overlap, and what is visible under a listed hash belongs to the set's family. */
  lemma IndexListsOwnTokensOnly(st: Store, led: Ledger, f: FamilyId, g: FamilyId, h: TokenHash)
    requires Agrees(st, led) && FamilyKey(f) in st.sets && h in st.sets[FamilyKey(f)]
    ensures h.token in led.places && led.places[h.token].family == f
    ensures Visible(st, TokenKey(h)).Record? ==> Visible(st, TokenKey(h)).record.familyId == f
    ensures FamilyKey(g) in st.sets && h in st.sets[FamilyKey(g)] ==> f == g
  {
    assert SetSound(FamilyKey(f), st.sets[FamilyKey(f)], led);
    assert FamilyKey(g) in st.sets ==> SetSound(FamilyKey(g), st.sets[FamilyKey(g)], led);
    assert Visible(st, TokenKey(h)) == led.Render(TokenKey(h));
  }

  // ---------- rotation ----------

  /** At most one live refresh token of a family is still unused. */
  lemma OneRotatableToken(st: Store, led: Ledger, h1: TokenHash, h2: TokenHash)
    requires Agrees(st, led)
    requires Visible(st, TokenKey(h1)).Record? && Visible(st, TokenKey(h2)).Record?
    requires var r1, r2 := Visible(st, TokenKey(h1)).record, Visible(st, TokenKey(h2)).record;
             r1.kind.Refresh? && r2.kind.Refresh? && !r1.used && !r2.used && r1.familyId == r2.familyId
    ensures h1 == h2
  {
    assert Visible(st, TokenKey(h1)) == led.Render(TokenKey(h1));
    assert Visible(st, TokenKey(h2)) == led.Render(TokenKey(h2));
    RotatableIsLast(led, h1.token);
    RotatableIsLast(led, h2.token);
    assert h1 == Sha256(h1.token) && h2 == Sha256(h2.token);
  }

  /** A live unused refresh token always rotates. The new pair becomes the one successor of the old in
      the family's chain, and its access token resolves to the login's user at once. */
  lemma LiveUnusedTokenRotates(st: Store, led: Ledger, token: Token, pair: SessionPair)
    requires Agrees(st, led) && led.FreshPair(pair)
    requires Visible(st, TokenKeyOf(token)).Record?
    requires var record := Visible(st, TokenKeyOf(token)).record; record.kind.Refresh? && !record.used
    ensures var record := Visible(st, TokenKeyOf(token)).record;
            var (st', reply) := RotateRefreshToken(st, token, pair);
            var led' := Spec(led, Rotate(token, pair)).0;
            && reply == Issued(pair) && Agrees(st', led')
            && GetUserIdForAccessToken(st', pair.access).1 == Some(record.userId)
            && record.userId == led.logins[record.familyId].user
            && led'.logins[record.familyId].chain == led.logins[record.familyId].chain + [Issue(pair, st.now)]
            && IssuedAs(led, token, Refresh, record.familyId, |led.logins[record.familyId].chain| - 1)
  {
    assert Visible(st, TokenKeyOf(token)) == led.Render(TokenKeyOf(token));
    StepRefines(st, led, Rotate(token, pair));
    RotatableIsLast(led, token);
    NewAccessTokenResolves(RotateRefreshToken(st, token, pair).0, led, led.places[token].family, pair);
  }

  lemma NewAccessTokenResolves(st: Store, led: Ledger, f: FamilyId, pair: SessionPair)
    requires f in led.logins && led.FreshPair(pair) && f !in led.revoked
    requires Agrees(st, led.Extend(f, led.logins[f], pair))
    ensures GetUserIdForAccessToken(st, pair.access).1 == Some(led.logins[f].user)
  {
    ExtendShows(led, f, led.logins[f], pair);
    ReadsAgree(st, led.Extend(f, led.logins[f], pair), pair.access);
  }

  /** The operation replies with a pair whose access record, just stored, names family `f`. */
  predicate IssuesIn(st: Store, op: Operation, f: FamilyId) {
    var (next, reply) := Do(st, op);
    reply.Issued? && var slot := Visible(next, TokenKeyOf(reply.pair.access)); slot.Record? && slot.record.familyId == f
  }

  /** How many pairs of family `f` a run of the store issues. */
  function IssuesOf(st: Store, ops: seq<Operation>, f: FamilyId): nat
    decreases |ops|
  {
    if ops == [] then 0
    else (if IssuesIn(st, ops[0], f) then 1 else 0) + IssuesOf(Do(st, ops[0]).0, ops[1..], f)
  }

  /** How many of them by rotation. */
  function RotationsOf(st: Store, ops: seq<Operation>, f: FamilyId): nat
    decreases |ops|
  {
    if ops == [] then 0
    else (if ops[0].Rotate? && IssuesIn(st, ops[0], f) then 1 else 0) + RotationsOf(Do(st, ops[0]).0, ops[1..], f)
  }

  function ChainOf(led: Ledger, f: FamilyId): seq<Issue> {
    if f in led.logins then led.logins[f].chain else []
  }

  /** The family the history extends at this operation. */
  function IssuedFamily(led: Ledger, op: Operation): Option<FamilyId> {
    match op
    case Login(_, _, family, _) => Some(family)
    case Rotate(token, _) => if Spec(led, op).1.Issued? then Some(led.places[token].family) else None
    case _ => None
  }

  lemma IssuesInHistory(st: Store, led: Ledger, op: Operation, f: FamilyId)
    requires Agrees(st, led) && Admissible(led, op)
    ensures IssuesIn(st, op, f) <==> IssuedFamily(led, op) == Some(f)
  {
    StepRefines(st, led, op);
    if IssuedFamily(led, op).Some? {
      var key := TokenKeyOf(op.pair.access);
      assert Visible(Do(st, op).0, key) == Spec(led, op).0.Render(key);
      IssueRenders(led, op);
    }
  }

  lemma IssueRenders(led: Ledger, op: Operation)
    requires led.Sound() && Admissible(led, op) && IssuedFamily(led, op).Some?
    ensures Spec(led, op).1.Issued? && Spec(led, op).1.pair == op.pair
    ensures var slot := Spec(led, op).0.Render(TokenKeyOf(op.pair.access));
            slot.Record? && slot.record.familyId == IssuedFamily(led, op).value
  {
    match op
    case Login(user, client, family, pair) => ExtendShows(led, family, LoginRecord(user, client, []), pair);
    case Rotate(token, pair) =>
      var f := led.places[token].family;
      ExtendShows(led, f, led.logins[f], pair);
  }

  lemma IssueLengthensChain(led: Ledger, op: Operation, f: FamilyId)
    requires led.Sound() && Admissible(led, op)
    ensures var next := Spec(led, op).0;
            && |ChainOf(next, f)| == |ChainOf(led, f)| + (if IssuedFamily(led, op) == Some(f) then 1 else 0)
            && (f in led.logins ==> f in next.logins)
            && (op.Login? && op.family == f <==> f !in led.logins && f in next.logins)
            && (op.Rotate? && IssuedFamily(led, op) == Some(f) ==> f in led.logins)
  {
    if op.Rotate? && IssuedFamily(led, op).Some? {
      assert led.PlaceSound(op.token, led.places[op.token]);
    }
  }

  lemma {:induction false} ChainCountsIssues(st: Store, led: Ledger, ops: seq<Operation>, f: FamilyId)
    requires Agrees(st, led) && AdmissibleRun(led, ops)
    ensures |ChainOf(SpecRun(led, ops).0, f)| == |ChainOf(led, f)| + IssuesOf(st, ops, f)
    ensures f in led.logins ==> f in SpecRun(led, ops).0.logins
    ensures IssuesOf(st, ops, f)
            == RotationsOf(st, ops, f) + if f !in led.logins && f in SpecRun(led, ops).0.logins then 1 else 0
    ensures f !in SpecRun(led, ops).0.logins ==> RotationsOf(st, ops, f) == 0
    decreases |ops|
  {
    if ops != [] {
      StepRefines(st, led, ops[0]);
      IssuesInHistory(st, led, ops[0], f);
      IssueLengthensChain(led, ops[0], f);
      ChainCountsIssues(Do(st, ops[0]).0, Spec(led, ops[0]).0, ops[1..], f);
    }
  }

  lemma {:induction false} FamiliesAreLogins(led: Ledger, ops: seq<Operation>, f: FamilyId)
    requires led.Sound() && AdmissibleRun(led, ops)
    ensures f in SpecRun(led, ops).0.logins <==> f in led.logins || exists op <- ops :: op.Login? && op.family == f
    decreases |ops|
  {
    if ops != [] {
      SpecKeepsSound(led, ops[0]);
      IssueLengthensChain(led, ops[0], f);
      FamiliesAreLogins(Spec(led, ops[0]).0, ops[1..], f);
      assert forall op :: op in ops <==> op == ops[0] || op in ops[1..];
    }
  }

  /** Pairs a run of the store ever issues in a family: none without a login that opens it, else one for
      the login and one for each successful rotation. The history's chain lists exactly those. */
  lemma IssuedPairsCounted(start: Time, ops: seq<Operation>, f: FamilyId)
    requires AdmissibleRun(NoHistory(start), ops)
    ensures IssuesOf(EmptyStore(start), ops, f)
            == if exists op <- ops :: op.Login? && op.family == f then 1 + RotationsOf(EmptyStore(start), ops, f) else 0
    ensures |ChainOf(SpecRun(NoHistory(start), ops).0, f)| == IssuesOf(EmptyStore(start), ops, f)
  {
    EmptyAgrees(start);
    ChainCountsIssues(EmptyStore(start), NoHistory(start), ops, f);
    FamiliesAreLogins(NoHistory(start), ops, f);
  }

  /** The reuse window. Along a chain the refresh deadlines never decrease, so the live refresh records
      are a suffix of the chain; and while a later token is live and unused, its predecessor's record is
      live, marked used, and expires at the same moment. */
  lemma ReuseWindow(st: Store, led: Ledger, f: FamilyId, i: nat, j: nat)
    requires Agrees(st, led) && f in led.logins && i < j < |led.logins[f].chain|
    ensures var chain := led.logins[f].chain;
            var earlier := Visible(st, TokenKeyOf(chain[i].pair.refresh));
            var later := Visible(st, TokenKeyOf(chain[j].pair.refresh));
            && led.Deadline(Place(f, i, Refresh)) <= led.Deadline(Place(f, j, Refresh))
            && (earlier.Record? ==> later.Record?)
            && (j == i + 1 && later.Record? && !later.record.used ==>
                  earlier.Record? && earlier.record.used && earlier.deadline == later.deadline)
  {
    var chain := led.logins[f].chain;
    assert led.ChainSound(f, chain);
    forall k | k == i || k == j
      ensures Visible(st, TokenKeyOf(chain[k].pair.refresh)) == led.Render(TokenKeyOf(chain[k].pair.refresh))
      ensures led.places[chain[k].pair.refresh] == Place(f, k, Refresh)
    {
    }
    assert led.Touched(Place(f, i, Refresh)) == chain[i + 1].at;
    assert led.Touched(Place(f, j, Refresh)) == chain[if j + 1 < |chain| then j + 1 else j].at;
  }

  /** The token at the `i`-th step of a run was rotated there. */
  ghost predicate RotatedAt(st: Store, ops: seq<Operation>, i: nat, token: Token) {
    i < |ops| && ops[i].Rotate? && ops[i].token == token && Run(st, ops).1[i].Issued?
  }

  /** Once rotated, a refresh token never rotates again. Presenting it while its record lives is answered
      with reuse, and leaves nothing of its family visible. */
  lemma RotatesAtMostOnce(st: Store, led: Ledger, ops: seq<Operation>, i: nat, j: nat)
    requires Agrees(st, led) && AdmissibleRun(led, ops) && i < j < |ops|
    requires ops[j].Rotate? && RotatedAt(st, ops, i, ops[j].token)
    ensures !Run(st, ops).1[j].Issued?
    ensures var slot := Visible(StoreAfter(st, ops, j), TokenKeyOf(ops[j].token));
            slot.Record? ==>
              && slot.record.used
              && Run(st, ops).1[j] == ReuseDetected(slot.record.familyId)
              && NothingShown(StoreAfter(st, ops, j + 1), slot.record.familyId)
  {
    RunAt(st, led, ops, i);
    RunAt(st, led, ops, j);
    RunGrowsBetween(led, ops, i + 1, j);
    RotatedIsSuperseded(SpecRun(led, ops[..i]).0, ops[i]);
    SupersededStays(SpecRun(led, ops[..i + 1]).0, SpecRun(led, ops[..j]).0, ops[j].token);
    SupersededIsReuse(StoreAfter(st, ops, j), SpecRun(led, ops[..j]).0, ops[j].token, ops[j].pair);
  }

  lemma SupersededIsReuse(st: Store, led: Ledger, token: Token, pair: SessionPair)
    requires Agrees(st, led) && led.FreshPair(pair)
    requires token in led.places && led.Known(led.places[token]) && led.Superseded(led.places[token])
    ensures var (st', reply) := RotateRefreshToken(st, token, pair);
            var slot := Visible(st, TokenKeyOf(token));
            && !reply.Issued?
            && (slot.Record? ==>
                  && slot.record.used && reply == ReuseDetected(slot.record.familyId)
                  && NothingShown(st', slot.record.familyId))
  {
    StepRefines(st, led, Rotate(token, pair));
    assert Visible(st, TokenKeyOf(token)) == led.Render(TokenKeyOf(token));
    if led.Live(token) {
      var f := led.places[token].family;
      RevokedShowsNothing(RotateRefreshToken(st, token, pair).0, led.Kill(f), f);
    }
  }

  lemma RotatedIsSuperseded(led: Ledger, op: Operation)
    requires led.Sound() && Admissible(led, op) && op.Rotate? && Spec(led, op).1.Issued?
    ensures var next := Spec(led, op).0;
            && op.token in led.places && op.token in next.places && next.places[op.token] == led.places[op.token]
            && next.Known(next.places[op.token]) && next.Superseded(next.places[op.token])
  {
  }

  /** A superseded token stays superseded while the history grows. */
  lemma SupersededStays(led: Ledger, next: Ledger, token: Token)
    requires Grows(led, next) && token in led.places && led.Known(led.places[token])
    requires led.Superseded(led.places[token])
    ensures token in next.places && next.Known(next.places[token]) && next.Superseded(next.places[token])
  {
  }

  lemma RevokedShowsNothing(st: Store, led: Ledger, f: FamilyId)
    requires Agrees(st, led) && f in led.revoked
    ensures NothingShown(st, f)
  {
    forall key ensures !ShowsFamily(st, key, f) {
      assert Visible(st, key) == led.Render(key);
    }
  }

  /** Reuse is only ever raised for a token that was rotated earlier in the run. */
  lemma ReuseOnlyAfterRotation(start: Time, ops: seq<Operation>, j: nat)
    requires AdmissibleRun(NoHistory(start), ops) && j < |ops|
    requires ops[j].Rotate? && Run(EmptyStore(start), ops).1[j].ReuseDetected?
    ensures exists i: nat :: i < j && RotatedAt(EmptyStore(start), ops, i, ops[j].token)
  {
    EmptyAgrees(start);
    RunAt(EmptyStore(start), NoHistory(start), ops, j);
    SupersededWasRotated(start, ops, j, ops[j].token);
  }

  lemma {:induction false} SupersededWasRotated(start: Time, ops: seq<Operation>, j: nat, token: Token)
    requires AdmissibleRun(NoHistory(start), ops) && j <= |ops|
    requires AdmissibleRun(NoHistory(start), ops[..j])
    requires var led := SpecRun(NoHistory(start), ops[..j]).0;
             token in led.places && led.Known(led.places[token]) && led.Superseded(led.places[token])
    ensures exists i: nat :: i < j && RotatedAt(EmptyStore(start), ops, i, token)
    decreases j
  {
    if j > 0 {
      SupersededStep(start, ops, j, token);
      if !RotatedAt(EmptyStore(start), ops, j - 1, token) {
        SupersededWasRotated(start, ops, j - 1, token);
      }
    }
  }

  /** A token superseded after `j` steps was superseded one step before, or rotated at that step. */
  lemma SupersededStep(start: Time, ops: seq<Operation>, j: nat, token: Token)
    requires AdmissibleRun(NoHistory(start), ops) && 0 < j <= |ops|
    requires AdmissibleRun(NoHistory(start), ops[..j])
    requires var led := SpecRun(NoHistory(start), ops[..j]).0;
             token in led.places && led.Known(led.places[token]) && led.Superseded(led.places[token])
    ensures AdmissibleRun(NoHistory(start), ops[..j - 1])
    ensures var before := SpecRun(NoHistory(start), ops[..j - 1]).0;
            (token in before.places && before.Known(before.places[token]) && before.Superseded(before.places[token]))
            || RotatedAt(EmptyStore(start), ops, j - 1, token)
  {
    EmptyAgrees(start);
    RunAt(EmptyStore(start), NoHistory(start), ops, j - 1);
    var before := SpecRun(NoHistory(start), ops[..j - 1]).0;
    if token in before.places {
      assert before.PlaceSound(token, before.places[token]);
    }
    if !(token in before.places && before.Superseded(before.places[token])) {
      NewlySuperseded(before, ops[j - 1], token);
    }
  }

  lemma NewlySuperseded(led: Ledger, op: Operation, token: Token)
    requires led.Sound() && Admissible(led, op)
    requires var next := Spec(led, op).0;
             token in next.places && next.Known(next.places[token]) && next.Superseded(next.places[token])
    requires token in led.places ==> !led.Superseded(led.places[token])
    ensures op.Rotate? && op.token == token && Spec(led, op).1.Issued?
  {
    if token in led.places {
      assert led.PlaceSound(token, led.places[token]);
    }
    if op.Rotate? && Spec(led, op).1.Issued? {
      RotatableIsLast(led, op.token);
    }
  }

  // ---------- revocation ----------

  /** Revocation is permanent: whatever runs before and after `revoke_family(f)`, nothing of `f` is
      ever visible again. */
  lemma RevocationIsPermanent(start: Time, before: seq<Operation>, f: FamilyId, after: seq<Operation>)
    requires AdmissibleRun(NoHistory(start), before + ([Revoke(f)] + after))
    ensures NothingShown(Run(EmptyStore(start), before + ([Revoke(f)] + after)).0, f)
  {
    var st, led := EmptyStore(start), NoHistory(start);
    EmptyAgrees(start);
    RunSplits(st, led, before, [Revoke(f)] + after);
    RunRefines(st, led, before);
    var st1, led1 := Run(st, before).0, SpecRun(led, before).0;
    SpecRunUnfolds(led1, Revoke(f), after);
    RunUnfolds(st1, Revoke(f), after);
    StepRefines(st1, led1, Revoke(f));
    RevokedForEver(RevokeFamily(st1, f), led1.Kill(f), f, after);
  }

  /** However a family came to be revoked (by request, by logout or by reuse), no run brings it back. */
  lemma RevokedForEver(st: Store, led: Ledger, f: FamilyId, ops: seq<Operation>)
    requires Agrees(st, led) && f in led.revoked && AdmissibleRun(led, ops)
    ensures NothingShown(Run(st, ops).0, f)
  {
    RunRefines(st, led, ops);
    RunGrows(led, ops);
    RevokedShowsNothing(Run(st, ops).0, SpecRun(led, ops).0, f);
  }

  /** Exact revocation: all live records of the family and its set go; every other key keeps its
      contents and its deadline. */
  lemma RevocationIsExact(st: Store, led: Ledger, f: FamilyId, key: Key)
    requires Agrees(st, led)
    ensures Visible(RevokeFamily(st, f), key) == if ShowsFamily(st, key, f) then Absent else Visible(st, key)
  {
    RevokeShows(st, f, key);
    assert Visible(st, key) == led.Render(key);
    assert Visible(st, FamilyKey(f)) == led.Render(FamilyKey(f));
    if key.TokenKey? && Visible(st, key).Record? {
      LiveRecordIsIndexed(st, led, key.hash);
    }
  }

  /** Revoking twice changes nothing more, in any state at all. */
  lemma RevocationIsIdempotent(st: Store, f: FamilyId)
    ensures RevokeFamily(RevokeFamily(st, f), f) == RevokeFamily(st, f)
  {
    var key := FamilyKey(f);
    var once := RevokeFamily(st, f);
    assert key !in once.values && key !in once.expiresAt && key !in once.sets;
    assert once.Smembers(key) == (once, {});
    assert once.values - {key} == once.values && once.expiresAt - {key} == once.expiresAt;
    assert once.sets - {key} == once.sets;
  }

  /** Logout revokes exactly the family of the live token presented, of either kind; with a token that
      is not live it changes nothing visible. */
  lemma LogoutIsExact(st: Store, led: Ledger, token: Token, key: Key)
    requires Agrees(st, led)
    ensures var slot := Visible(st, TokenKeyOf(token));
            Visible(RevokeSessionByRefreshToken(st, token), key)
            == if slot.Record? && ShowsFamily(st, key, slot.record.familyId) then Absent else Visible(st, key)
  {
    ReadsAgree(st, led, token);
    var purged := st.Get(TokenKeyOf(token)).0;
    forall k ensures Visible(purged, k) == Visible(st, k) {
      assert Visible(st, k) == led.Render(k);
    }
    assert Visible(st, TokenKeyOf(token)) == led.Render(TokenKeyOf(token));
    if led.Live(token) {
      RevocationIsExact(purged, led, led.places[token].family, key);
    }
  }

  // ---------- idleness ----------

  lemma IdleChainStays(st: Store, led: Ledger, ops: seq<Operation>, f: FamilyId)
    requires Agrees(st, led) && AdmissibleRun(led, ops) && f in led.logins && RotationsOf(st, ops, f) == 0
    ensures Agrees(Run(st, ops).0, SpecRun(led, ops).0)
    ensures f in SpecRun(led, ops).0.logins && SpecRun(led, ops).0.logins[f].chain == led.logins[f].chain
    ensures |led.logins[f].chain| > 0 && SpecRun(led, ops).0.LastIssue(f) == led.LastIssue(f)
  {
    assert led.ChainSound(f, led.logins[f].chain);
    RunRefines(st, led, ops);
    RunGrows(led, ops);
    ChainCountsIssues(st, led, ops, f);
  }

  /** If anything of the family is visible under this key, it has a deadline, which is not past and at
      most `bound`. */
  ghost predicate ExpiresBy(st: Store, key: Key, f: FamilyId, bound: Time) {
    ShowsFamily(st, key, f) ==>
      st.now < bound && Visible(st, key).deadline.Some? && Visible(st, key).deadline.value <= bound
  }

  /** Without a successful rotation in the family, no run moves its last deadline: every live key of the
      family expires at most thirty days after the last pair was issued. */
  lemma IdleFamilyExpires(st: Store, led: Ledger, ops: seq<Operation>, f: FamilyId, key: Key)
    requires Agrees(st, led) && AdmissibleRun(led, ops) && f in led.logins && RotationsOf(st, ops, f) == 0
    ensures |led.logins[f].chain| > 0
    ensures ExpiresBy(Run(st, ops).0, key, f, led.LastIssue(f) + REFRESH_TTL_SECONDS)
  {
    IdleChainStays(st, led, ops, f);
    FamilyExpiresWithLastIssue(Run(st, ops).0, SpecRun(led, ops).0, f, led.LastIssue(f), key);
  }

  lemma FamilyExpiresWithLastIssue(st: Store, led: Ledger, f: FamilyId, last: Time, key: Key)
    requires Agrees(st, led) && f in led.logins && |led.logins[f].chain| > 0 && led.LastIssue(f) == last
    ensures ExpiresBy(st, key, f, last + REFRESH_TTL_SECONDS)
  {
    assert Visible(st, key) == led.Render(key);
    if ShowsFamily(st, key, f) && key.TokenKey? {
      LiveTokenHasLiveFamily(led, key.hash.token);
    }
  }

  // ---------- lazy and eager expiry ----------

  /** Drop every key whose deadline has passed. */
  function Sweep(st: Store): Store {
    st.Delete(set key | key in st.expiresAt && st.IsExpired(key))
  }

  /** A store that drops keys at their deadline instead of when they are next read. */
  function DoEager(st: Store, op: Operation): (Store, Reply) {
    var (next, reply) := Do(st, op);
    (Sweep(next), reply)
  }

  function RunEager(st: Store, ops: seq<Operation>): (Store, seq<Reply>)
    decreases |ops|
  {
    if ops == [] then (st, [])
    else
      var (st1, reply) := DoEager(st, ops[0]);
      var (st2, replies) := RunEager(st1, ops[1..]);
      (st2, [reply] + replies)
  }

  lemma SweepAgrees(st: Store, led: Ledger)
    requires Agrees(st, led)
    ensures Agrees(Sweep(st), led)
    ensures forall key :: !Sweep(st).IsExpired(key)
  {
    forall key ensures Visible(Sweep(st), key) == led.Render(key) {
      assert Visible(st, key) == led.Render(key);
    }
  }

  /** On every run the lazily purged store answers exactly as the eager one, and shows the same keys. */
  lemma {:induction false} LazyAgreesWithEager(lazy: Store, eager: Store, led: Ledger, ops: seq<Operation>)
    requires Agrees(lazy, led) && Agrees(eager, led) && AdmissibleRun(led, ops)
    ensures Run(lazy, ops).1 == RunEager(eager, ops).1
    ensures forall key :: Visible(Run(lazy, ops).0, key) == Visible(RunEager(eager, ops).0, key)
    decreases |ops|
  {
    if ops == [] {
      forall key ensures Visible(lazy, key) == Visible(eager, key) {
        assert Visible(lazy, key) == led.Render(key);
      }
    } else {
      StepRefines(lazy, led, ops[0]);
      StepRefines(eager, led, ops[0]);
      SweepAgrees(Do(eager, ops[0]).0, Spec(led, ops[0]).0);
      LazyAgreesWithEager(Do(lazy, ops[0]).0, DoEager(eager, ops[0]).0, Spec(led, ops[0]).0, ops[1..]);
    }
  }
}
