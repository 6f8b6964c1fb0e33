/** The store refines the history: after every run, what is visible under every key is what the
    history says, and every reply is the history's reply. */
module SessionRefinement {
  import opened Options
  import opened KeyValueStore
  import opened SessionOperations
  import opened SessionLedger

  /** The coupling. Expired entries that nobody has read may still lie in the store; even their sets list
      only hashes of their own family. */
  ghost predicate Agrees(st: Store, led: Ledger) {
    && led.Sound()
    && st.now == led.now
    && (forall key <- st.values :: key.TokenKey?)
    && (forall key <- st.sets :: SetSound(key, st.sets[key], led))
    && (forall key :: Visible(st, key) == led.Render(key))
  }

  ghost predicate SetSound(key: Key, hashes: set<TokenHash>, led: Ledger) {
    key.FamilyKey? && key.family in led.logins && hashes <= led.HashesOf(key.family)
  }

  /** Purging an expired key changes nothing visible. */
  lemma PurgeShows(st: Store, key: Key, k: Key)
    ensures Visible(st.Purge(key), k) == Visible(st, k)
  {
  }

  lemma PurgeAgrees(st: Store, led: Ledger, key: Key)
    requires Agrees(st, led)
    ensures Agrees(st.Purge(key), led)
  {
    var purged := st.Purge(key);
    forall k ensures Visible(purged, k) == led.Render(k) {
      PurgeShows(st, key, k);
      assert Visible(st, k) == led.Render(k);
    }
  }

  /** What stays visible when a family is extended: every key but the two new ones, the family's own
      set and its last refresh token. */
  lemma ExtendElsewhere(led: Ledger, f: FamilyId, login: LoginRecord, pair: SessionPair, k: Key)
    requires Extensible(led, f, login) && led.FreshPair(pair)
    requires k != TokenKeyOf(pair.access) && k != TokenKeyOf(pair.refresh) && k != FamilyKey(f)
    requires k.TokenKey? && k.hash.token in led.places ==> led.PlaceSound(k.hash.token, led.places[k.hash.token])
    requires login.chain != [] ==> k != TokenKeyOf(login.chain[|login.chain| - 1].pair.refresh)
    ensures led.Extend(f, login, pair).Render(k) == led.Render(k)
  {
    var next := led.Extend(f, login, pair);
    match k
    case TokenKey(h) =>
      var t := h.token;
      if t in led.places {
        assert next.places[t] == led.places[t];
        ExtendPlace(led, f, login, pair, t, led.places[t]);
      }
    case FamilyKey(g) =>
      ExtendHashes(led, f, login, pair, g);
  }

  ghost predicate Extensible(led: Ledger, f: FamilyId, login: LoginRecord) {
    if f in led.logins then login == led.logins[f] else login.chain == []
  }

  lemma ExtendPlace(led: Ledger, f: FamilyId, login: LoginRecord, pair: SessionPair, t: Token, p: Place)
    requires Extensible(led, f, login) && led.PlaceSound(t, p)
    requires login.chain != [] ==> t != login.chain[|login.chain| - 1].pair.refresh
    ensures var next := led.Extend(f, login, pair);
            next.Known(p) && next.Deadline(p) == led.Deadline(p) && next.RecordAt(p) == led.RecordAt(p)
  {
    if p.family == f {
      assert p.kind.Refresh? ==> p.index + 1 < |login.chain|;
    }
  }

  lemma ExtendHashes(led: Ledger, f: FamilyId, login: LoginRecord, pair: SessionPair, g: FamilyId)
    requires pair.access !in led.places && pair.refresh !in led.places
    ensures led.Extend(f, login, pair).HashesOf(g)
            == led.HashesOf(g) + if g == f then {Sha256(pair.access), Sha256(pair.refresh)} else {}
  {
    var next := led.Extend(f, login, pair);
    forall h
      ensures h in next.HashesOf(g)
              <==> h in led.HashesOf(g) || (g == f && (h == Sha256(pair.access) || h == Sha256(pair.refresh)))
    {
      assert h == Sha256(h.token);
      assert h in next.HashesOf(g) <==> h.token in next.places && next.places[h.token].family == g;
      assert h in led.HashesOf(g) <==> h.token in led.places && led.places[h.token].family == g;
    }
  }

  /** What issuing a pair leaves under each key. */
  lemma IssueShows(st: Store, user: UserId, f: FamilyId, client: Client, pair: SessionPair, k: Key)
    requires pair.access != pair.refresh
    requires forall key <- st.values :: key.TokenKey?
    ensures var after := IssuePair(st, user, f, client, pair);
            Visible(after, k)
            == if k == TokenKeyOf(pair.access)
               then Record(FreshRecord(user, f, Access, client, pair.csrf), Some(st.now + ACCESS_TTL_SECONDS))
               else if k == TokenKeyOf(pair.refresh)
               then Record(FreshRecord(user, f, Refresh, client, pair.csrf), Some(st.now + REFRESH_TTL_SECONDS))
               else if k == FamilyKey(f)
               then Members((if k in st.sets then st.sets[k] else {}) + {Sha256(pair.access), Sha256(pair.refresh)},
                            Some(st.now + REFRESH_TTL_SECONDS))
               else Visible(st, k)
  {
  }

  /** What the history shows of a pair just issued. */
  lemma ExtendShows(led: Ledger, f: FamilyId, login: LoginRecord, pair: SessionPair)
    requires Extensible(led, f, login) && led.FreshPair(pair) && f !in led.revoked
    ensures var next := led.Extend(f, login, pair);
            && next.Render(TokenKeyOf(pair.access))
               == Record(FreshRecord(login.user, f, Access, login.client, pair.csrf),
                         Some(led.now + ACCESS_TTL_SECONDS))
            && next.Render(TokenKeyOf(pair.refresh))
               == Record(FreshRecord(login.user, f, Refresh, login.client, pair.csrf),
                         Some(led.now + REFRESH_TTL_SECONDS))
            && next.Render(FamilyKey(f))
               == Members(led.HashesOf(f) + {Sha256(pair.access), Sha256(pair.refresh)},
                          Some(led.now + REFRESH_TTL_SECONDS))
  {
    ExtendHashes(led, f, login, pair, f);
  }

  lemma IssuedSetsSound(st: Store, led: Ledger, f: FamilyId, login: LoginRecord, pair: SessionPair)
    requires led.FreshPair(pair) && forall key <- st.sets :: SetSound(key, st.sets[key], led)
    ensures var sets := IssuePair(st, login.user, f, login.client, pair).sets;
            forall key <- sets :: SetSound(key, sets[key], led.Extend(f, login, pair))
  {
    var sets := IssuePair(st, login.user, f, login.client, pair).sets;
    forall key <- sets ensures SetSound(key, sets[key], led.Extend(f, login, pair)) {
      assert key in st.sets ==> SetSound(key, st.sets[key], led);
      if key.FamilyKey? {
        ExtendHashes(led, f, login, pair, key.family);
      }
    }
  }

  lemma IssueAgrees(st: Store, led: Ledger, f: FamilyId, login: LoginRecord, pair: SessionPair)
    requires Extensible(led, f, login) && led.FreshPair(pair) && st.now == led.now && f !in led.revoked
    requires forall key <- st.values :: key.TokenKey?
    requires forall key <- st.sets :: SetSound(key, st.sets[key], led)
    requires led.Extend(f, login, pair).Sound()
    requires var next := led.Extend(f, login, pair);
             forall key :: key != TokenKeyOf(pair.access) && key != TokenKeyOf(pair.refresh) && key != FamilyKey(f)
                           ==> Visible(st, key) == next.Render(key)
    requires led.HashesOf(f) == if FamilyKey(f) in st.sets then st.sets[FamilyKey(f)] else {}
    ensures Agrees(IssuePair(st, login.user, f, login.client, pair), led.Extend(f, login, pair))
  {
    var next := led.Extend(f, login, pair);
    var after := IssuePair(st, login.user, f, login.client, pair);
    ExtendShows(led, f, login, pair);
    forall k ensures Visible(after, k) == next.Render(k) {
      IssueShows(st, login.user, f, login.client, pair, k);
    }
    IssuedSetsSound(st, led, f, login, pair);
  }

  lemma LoginAgrees(st: Store, led: Ledger, user: UserId, client: Client, f: FamilyId, pair: SessionPair)
    requires Agrees(st, led) && Admissible(led, Login(user, client, f, pair))
    ensures Agrees(IssuePair(st, user, f, client, pair), led.Extend(f, LoginRecord(user, client, []), pair))
  {
    var login := LoginRecord(user, client, []);
    var next := led.Extend(f, login, pair);
    ExtendSound(led, f, login, pair);
    forall k | k != TokenKeyOf(pair.access) && k != TokenKeyOf(pair.refresh) && k != FamilyKey(f)
      ensures Visible(st, k) == next.Render(k)
    {
      assert Visible(st, k) == led.Render(k);
      ExtendElsewhere(led, f, login, pair, k);
    }
    assert led.HashesOf(f) == {};
    IssueAgrees(st, led, f, login, pair);
  }

  /** The refresh token that may be rotated is the last of its chain. */
  lemma RotatableIsLast(led: Ledger, token: Token)
    requires led.Sound() && led.Live(token) && led.places[token].kind.Refresh? && !led.Superseded(led.places[token])
    ensures var chain := led.logins[led.places[token].family].chain;
            && led.places[token].index + 1 == |chain| && chain[|chain| - 1].pair.refresh == token
            && led.FamilyLive(led.places[token].family)
  {
    assert led.PlaceSound(token, led.places[token]);
  }

  lemma RotationAgrees(st: Store, led: Ledger, token: Token, pair: SessionPair)
    requires Agrees(st, led) && led.FreshPair(pair)
    requires led.Live(token) && led.places[token].kind.Refresh? && !led.Superseded(led.places[token])
    ensures var place := led.places[token];
            var record := led.RecordAt(place).(used := true);
            Agrees(IssuePair(st.Set(TokenKeyOf(token), record, Some(REFRESH_TTL_SECONDS)),
                             record.userId, record.familyId, record.client, pair),
                   led.Extend(place.family, led.logins[place.family], pair))
  {
    var place := led.places[token];
    var f := place.family;
    var login := led.logins[f];
    var next := led.Extend(f, login, pair);
    var record := led.RecordAt(place).(used := true);
    var marked := st.Set(TokenKeyOf(token), record, Some(REFRESH_TTL_SECONDS));
    ExtendSound(led, f, login, pair);
    RotatableIsLast(led, token);
    forall k | k != TokenKeyOf(pair.access) && k != TokenKeyOf(pair.refresh) && k != FamilyKey(f)
      ensures Visible(marked, k) == next.Render(k)
    {
      assert Visible(st, k) == led.Render(k);
      assert k.TokenKey? && k.hash.token in led.places ==> led.PlaceSound(k.hash.token, led.places[k.hash.token]);
      RotationElsewhere(st, led, token, pair, k);
    }
    assert Visible(st, FamilyKey(f)) == led.Render(FamilyKey(f));
    IssueAgrees(marked, led, f, login, pair);
  }

  /** Marking the rotated token shows, under every key but those of the new pair and the family's set,
      what the extended history shows. */
  lemma RotationElsewhere(st: Store, led: Ledger, token: Token, pair: SessionPair, k: Key)
    requires led.FreshPair(pair) && st.now == led.now && Visible(st, k) == led.Render(k)
    requires token in led.places && led.PlaceSound(token, led.places[token])
    requires k.TokenKey? && k.hash.token in led.places ==> led.PlaceSound(k.hash.token, led.places[k.hash.token])
    requires var place := led.places[token];
             && place.kind.Refresh? && place.family !in led.revoked
             && place.index + 1 == |led.logins[place.family].chain|
    requires k != TokenKeyOf(pair.access) && k != TokenKeyOf(pair.refresh) && k != FamilyKey(led.places[token].family)
    ensures var place := led.places[token];
            var record := led.RecordAt(place).(used := true);
            Visible(st.Set(TokenKeyOf(token), record, Some(REFRESH_TTL_SECONDS)), k)
            == led.Extend(place.family, led.logins[place.family], pair).Render(k)
  {
    var f := led.places[token].family;
    if k == TokenKeyOf(token) {
      RotatedShows(led, token, pair);
    } else {
      ExtendElsewhere(led, f, led.logins[f], pair, k);
    }
  }

  /** The history shows a rotated token as used, with its time to live counted anew from the rotation. */
  lemma RotatedShows(led: Ledger, token: Token, pair: SessionPair)
    requires token in led.places && token != pair.access && token != pair.refresh
    requires var place := led.places[token];
             && led.Known(place) && place.kind.Refresh? && place.family !in led.revoked
             && place.index + 1 == |led.logins[place.family].chain|
    ensures var place := led.places[token];
            led.Extend(place.family, led.logins[place.family], pair).Render(TokenKeyOf(token))
            == Record(led.RecordAt(place).(used := true), Some(led.now + REFRESH_TTL_SECONDS))
  {
  }

  /** What revoking a family leaves under each key. */
  lemma RevokeShows(st: Store, f: FamilyId, k: Key)
    requires forall key <- st.values :: key.TokenKey?
    requires forall key <- st.sets :: key.FamilyKey?
    ensures var members := match Visible(st, FamilyKey(f)) case Members(hashes, _) => hashes case _ => {};
            Visible(RevokeFamily(st, f), k)
            == if k == FamilyKey(f) || (k.TokenKey? && k.hash in members) then Absent else Visible(st, k)
  {
    var purged := st.Purge(FamilyKey(f));
    var members := st.Smembers(FamilyKey(f)).1;
    PurgeShows(st, FamilyKey(f), FamilyKey(f));
    PurgeShows(st, FamilyKey(f), k);
    RevokeDeletes(st, f);
    assert k in TokenKeys(members) <==> k.TokenKey? && k.hash in members;
    DeleteShows(purged, TokenKeys(members) + {FamilyKey(f)}, k);
  }

  lemma RevokeDeletes(st: Store, f: FamilyId)
    ensures RevokeFamily(st, f)
            == st.Purge(FamilyKey(f)).Delete(TokenKeys(st.Smembers(FamilyKey(f)).1) + {FamilyKey(f)})
  {
  }

  lemma DeleteShows(st: Store, keys: set<Key>, k: Key)
    ensures Visible(st.Delete(keys), k) == if k in keys then Absent else Visible(st, k)
  {
  }

  lemma RevokeAgrees(st: Store, led: Ledger, f: FamilyId)
    requires Agrees(st, led)
    ensures Agrees(RevokeFamily(st, f), led.Kill(f))
  {
    var next := led.Kill(f);
    KillSound(led, next);
    SetsStaySound(st, led, RevokeFamily(st, f), next);
    assert Visible(st, FamilyKey(f)) == led.Render(FamilyKey(f));
    forall k ensures Visible(RevokeFamily(st, f), k) == next.Render(k) {
      RevokeShows(st, f, k);
      assert Visible(st, k) == led.Render(k);
      KillShows(led, f, k);
    }
  }

  lemma SetsStaySound(st: Store, led: Ledger, st': Store, next: Ledger)
    requires forall key <- st.sets :: SetSound(key, st.sets[key], led)
    requires forall key <- st'.sets :: key in st.sets && st'.sets[key] == st.sets[key]
    requires next.logins == led.logins && next.places == led.places
    ensures forall key <- st'.sets :: SetSound(key, st'.sets[key], next)
  {
    forall key <- st'.sets ensures SetSound(key, st'.sets[key], next) {
      assert SetSound(key, st.sets[key], led);
      assert next.HashesOf(key.family) == led.HashesOf(key.family);
    }
  }

  /** Killing a family hides exactly its set and the tokens its set lists. */
  lemma KillShows(led: Ledger, f: FamilyId, k: Key)
    requires led.Sound()
    ensures var members := match led.Render(FamilyKey(f)) case Members(hashes, _) => hashes case _ => {};
            led.Kill(f).Render(k)
            == if k == FamilyKey(f) || (k.TokenKey? && k.hash in members) then Absent else led.Render(k)
  {
    match k
    case TokenKey(h) =>
      if led.Live(h.token) {
        LiveTokenHasLiveFamily(led, h.token);
      }
      assert h in led.HashesOf(f) <==> h.token in led.places && led.places[h.token].family == f by {
        assert h == Sha256(h.token);
      }
    case FamilyKey(g) =>
      assert led.Kill(f).HashesOf(g) == led.HashesOf(g);
  }

  /** No token outlives its family's index set. */
  lemma LiveTokenHasLiveFamily(led: Ledger, t: Token)
    requires led.Sound() && led.Live(t)
    ensures var f := led.places[t].family;
            led.FamilyLive(f) && led.Deadline(led.places[t]) <= led.LastIssue(f) + REFRESH_TTL_SECONDS
  {
    var place := led.places[t];
    assert led.PlaceSound(t, place);
    assert led.ChainSound(place.family, led.logins[place.family].chain);
  }

  lemma TickAgrees(st: Store, led: Ledger, seconds: Time)
    requires Agrees(st, led) && seconds >= 0.0
    ensures Agrees(st.Tick(seconds), led.(now := led.now + seconds))
  {
    var next := led.(now := led.now + seconds);
    KillSound(led, next);
    SetsStaySound(st, led, st.Tick(seconds), next);
    forall k ensures Visible(st.Tick(seconds), k) == next.Render(k) {
      assert Visible(st, k) == led.Render(k);
      TickShows(st, led, seconds, k);
    }
  }

  lemma TickShows(st: Store, led: Ledger, seconds: Time, k: Key)
    requires st.now == led.now && seconds >= 0.0 && Visible(st, k) == led.Render(k)
    ensures Visible(st.Tick(seconds), k) == led.(now := led.now + seconds).Render(k)
  {
    if k.FamilyKey? {
      assert led.(now := led.now + seconds).HashesOf(k.family) == led.HashesOf(k.family);
    }
  }

  /** One step: the store and the history give the same reply and still agree. */
  lemma StepRefines(st: Store, led: Ledger, op: Operation)
    requires Agrees(st, led) && Admissible(led, op)
    ensures Agrees(Do(st, op).0, Spec(led, op).0)
    ensures Do(st, op).1 == Spec(led, op).1
  {
    match op
    case Login(user, client, family, pair) => LoginAgrees(st, led, user, client, family, pair);
    case Tick(seconds) => TickAgrees(st, led, seconds);
    case Revoke(family) => RevokeAgrees(st, led, family);
    case Rotate(token, pair) =>
      ReadsAgree(st, led, token);
      if Spec(led, op).1.Issued? {
        RotationAgrees(st.Purge(TokenKeyOf(token)), led, token, pair);
      } else if Spec(led, op).1.ReuseDetected? {
        RevokeAgrees(st.Purge(TokenKeyOf(token)), led, led.places[token].family);
      }
    case Logout(token) =>
      ReadsAgree(st, led, token);
      if led.Live(token) {
        RevokeAgrees(st.Purge(TokenKeyOf(token)), led, led.places[token].family);
      }
    case WhoIs(token) => ReadsAgree(st, led, token);
    case CsrfOf(token) => ReadsAgree(st, led, token);
  }

  /** Reading a token's record gives the history's record exactly while the token is live. */
  lemma ReadsAgree(st: Store, led: Ledger, token: Token)
    requires Agrees(st, led)
    ensures Agrees(st.Get(TokenKeyOf(token)).0, led)
    ensures st.Get(TokenKeyOf(token)).1
            == if led.Live(token) then Some(led.RecordAt(led.places[token])) else None
  {
    PurgeAgrees(st, led, TokenKeyOf(token));
    assert Visible(st, TokenKeyOf(token)) == led.Render(TokenKeyOf(token));
  }

  /** Every run of the store is a run of the history. */
  lemma {:induction false} RunRefines(st: Store, led: Ledger, ops: seq<Operation>)
    requires Agrees(st, led) && AdmissibleRun(led, ops)
    ensures Agrees(Run(st, ops).0, SpecRun(led, ops).0)
    ensures Run(st, ops).1 == SpecRun(led, ops).1
    decreases |ops|
  {
    if ops != [] {
      StepRefines(st, led, ops[0]);
      RunRefines(Do(st, ops[0]).0, Spec(led, ops[0]).0, ops[1..]);
    }
  }

  lemma EmptyAgrees(start: Time)
    ensures Agrees(EmptyStore(start), NoHistory(start))
  {
  }
}
