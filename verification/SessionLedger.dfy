/** The history of all logins, as an abstract machine with no keys, deadlines or index to keep in step.

    Every login owns one family. A family is a chain of issued pairs: the login's own pair, then one
    pair for each successful rotation. Revoked families are remembered for ever. */
module SessionLedger {
  import opened Options
  import opened KeyValueStore
  import opened SessionOperations

  datatype Issue = Issue(pair: SessionPair, at: Time)

  datatype LoginRecord = LoginRecord(user: UserId, client: Client, chain: seq<Issue>)

  /** Where a token was issued: the `index`-th pair of a family. */
  datatype Place = Place(family: FamilyId, index: nat, kind: TokenKind)

  datatype Ledger = Ledger(
    logins: map<FamilyId, LoginRecord>, revoked: set<FamilyId>, places: map<Token, Place>, now: Time)
  {
    predicate Sound() {
      && (forall f <- logins :: ChainSound(f, logins[f].chain))
      && (forall t <- places :: PlaceSound(t, places[t]))
      && BLANK !in places
    }

    predicate ChainSound(f: FamilyId, chain: seq<Issue>) {
      && |chain| > 0
      && (forall i | 0 <= i < |chain| ::
            && chain[i].at <= now
            && chain[i].pair.access in places && places[chain[i].pair.access] == Place(f, i, Access)
            && chain[i].pair.refresh in places && places[chain[i].pair.refresh] == Place(f, i, Refresh))
      && (forall i, j | 0 <= i < j < |chain| :: chain[i].at <= chain[j].at)
    }

    predicate Known(p: Place) {
      p.family in logins && p.index < |logins[p.family].chain|
    }

    predicate PlaceSound(t: Token, p: Place) {
      && Known(p)
      && var pair := logins[p.family].chain[p.index].pair;
         t == if p.kind.Access? then pair.access else pair.refresh
    }

    /** The refresh token at this place has been rotated. */
    predicate Superseded(p: Place)
      requires p.family in logins
    {
      p.kind.Refresh? && p.index + 1 < |logins[p.family].chain|
    }

    /** When the pair at this place was issued or, for a rotated refresh token, when its successor was. */
    function Touched(p: Place): Time
      requires Known(p)
    {
      logins[p.family].chain[if Superseded(p) then p.index + 1 else p.index].at
    }

    function Deadline(p: Place): Time
      requires Known(p)
    {
      Touched(p) + if p.kind.Access? then ACCESS_TTL_SECONDS else REFRESH_TTL_SECONDS
    }

    /** The last time a pair was issued in the family. */
    function LastIssue(f: FamilyId): Time
      requires f in logins && |logins[f].chain| > 0
    {
      logins[f].chain[|logins[f].chain| - 1].at
    }

    predicate Live(t: Token) {
      t in places && Known(places[t]) && places[t].family !in revoked && now < Deadline(places[t])
    }

    predicate FamilyLive(f: FamilyId) {
      f in logins && |logins[f].chain| > 0 && f !in revoked && now < LastIssue(f) + REFRESH_TTL_SECONDS
    }

    function RecordAt(p: Place): TokenRecord
      requires Known(p)
    {
      var login := logins[p.family];
      TokenRecord(login.user, p.family, p.kind, Superseded(p), login.client, login.chain[p.index].pair.csrf)
    }

    function HashesOf(f: FamilyId): set<TokenHash> {
      set t | t in places && places[t].family == f :: Sha256(t)
    }

    /** What the store must show under each key, computed from the history alone. */
    function Render(key: Key): Slot {
      match key
      case TokenKey(h) =>
        if Live(h.token) then Record(RecordAt(places[h.token]), Some(Deadline(places[h.token]))) else Absent
      case FamilyKey(f) =>
        if FamilyLive(f) then Members(HashesOf(f), Some(LastIssue(f) + REFRESH_TTL_SECONDS)) else Absent
    }

    predicate FreshPair(pair: SessionPair) {
      && pair.access != pair.refresh
      && pair.access !in places && pair.refresh !in places
      && pair.access != BLANK && pair.refresh != BLANK
    }

    predicate FreshFamily(f: FamilyId) {
      f !in logins && f !in revoked
    }

    /** Append a pair to a family, opening the family when it is new. */
    function Extend(f: FamilyId, login: LoginRecord, pair: SessionPair): Ledger {
      this.(logins := logins[f := login.(chain := login.chain + [Issue(pair, now)])],
            places := places[pair.access := Place(f, |login.chain|, Access)]
                            [pair.refresh := Place(f, |login.chain|, Refresh)])
    }

    function Kill(f: FamilyId): Ledger {
      this.(revoked := revoked + {f})
    }
  }

  function NoHistory(start: Time): Ledger {
    Ledger(map[], {}, map[], start)
  }

  /** Names drawn by `uuid4` and `generate_token` have never been seen; the clock never runs backwards. */
  predicate Admissible(led: Ledger, op: Operation) {
    match op
    case Login(_, _, family, pair) => led.FreshFamily(family) && led.FreshPair(pair)
    case Rotate(_, pair) => led.FreshPair(pair)
    case Tick(seconds) => seconds >= 0.0
    case _ => true
  }

  function Spec(led: Ledger, op: Operation): (Ledger, Reply) {
    match op
    case Login(user, client, family, pair) =>
      (led.Extend(family, LoginRecord(user, client, []), pair), Issued(pair))
    case Rotate(token, pair) =>
      if !led.Live(token) then (led, InvalidRefreshToken)
      else
        var place := led.places[token];
        if place.kind.Access? then (led, NotARefreshToken)
        else if led.Superseded(place) then (led.Kill(place.family), ReuseDetected(place.family))
        else (led.Extend(place.family, led.logins[place.family], pair), Issued(pair))
    case Revoke(family) => (led.Kill(family), Done)
    case Logout(token) => (if led.Live(token) then led.Kill(led.places[token].family) else led, Done)
    case WhoIs(token) =>
      (led, Resolved(if led.Live(token) && led.places[token].kind.Access?
                     then Some(led.logins[led.places[token].family].user) else None))
    case CsrfOf(token) =>
      (led, CsrfIs(if led.Live(token) then Some(led.RecordAt(led.places[token]).csrf) else None))
    case Tick(seconds) => (led.(now := led.now + seconds), Done)
  }

  lemma ExtendSound(led: Ledger, f: FamilyId, login: LoginRecord, pair: SessionPair)
    requires led.Sound() && led.FreshPair(pair)
    requires if f in led.logins then login == led.logins[f] else login.chain == []
    ensures led.Extend(f, login, pair).Sound()
  {
    var next := led.Extend(f, login, pair);
    forall g <- next.logins
      ensures next.ChainSound(g, next.logins[g].chain)
    {
      if g in led.logins {
        assert led.ChainSound(g, led.logins[g].chain);
      }
      ExtendChainSound(led, f, login, pair, g);
    }
    forall t <- next.places
      ensures next.PlaceSound(t, next.places[t])
    {
      if t in led.places {
        assert led.PlaceSound(t, led.places[t]);
      }
      ExtendPlaceSound(led, f, login, pair, t);
    }
  }

  lemma ExtendChainSound(led: Ledger, f: FamilyId, login: LoginRecord, pair: SessionPair, g: FamilyId)
    requires led.FreshPair(pair) && g in led.Extend(f, login, pair).logins
    requires if f in led.logins then login == led.logins[f] else login.chain == []
    requires g in led.logins ==> led.ChainSound(g, led.logins[g].chain)
    ensures var next := led.Extend(f, login, pair); next.ChainSound(g, next.logins[g].chain)
  {
  }

  lemma ExtendPlaceSound(led: Ledger, f: FamilyId, login: LoginRecord, pair: SessionPair, t: Token)
    requires led.FreshPair(pair) && t in led.Extend(f, login, pair).places
    requires if f in led.logins then login == led.logins[f] else login.chain == []
    requires t in led.places ==> led.PlaceSound(t, led.places[t])
    ensures var next := led.Extend(f, login, pair); next.PlaceSound(t, next.places[t])
  {
  }

  lemma SpecKeepsSound(led: Ledger, op: Operation)
    requires led.Sound() && Admissible(led, op)
    ensures Spec(led, op).0.Sound()
  {
    var next := Spec(led, op).0;
    match op
    case Login(user, client, family, pair) =>
      ExtendSound(led, family, LoginRecord(user, client, []), pair);
    case Rotate(token, pair) =>
      if Spec(led, op).1.Issued? {
        var f := led.places[token].family;
        ExtendSound(led, f, led.logins[f], pair);
      } else {
        KillSound(led, next);
      }
    case _ => KillSound(led, next);
  }

  /** Soundness does not depend on who is revoked, and survives the passing of time. */
  lemma KillSound(led: Ledger, next: Ledger)
    requires led.Sound() && next.logins == led.logins && next.places == led.places && led.now <= next.now
    ensures next.Sound()
  {
    forall f <- next.logins
      ensures next.ChainSound(f, next.logins[f].chain)
    {
      assert led.ChainSound(f, led.logins[f].chain);
    }
    forall t <- next.places
      ensures next.PlaceSound(t, next.places[t])
    {
      assert led.PlaceSound(t, led.places[t]);
    }
  }

  predicate AdmissibleRun(led: Ledger, ops: seq<Operation>)
    requires led.Sound()
    decreases |ops|
  {
    ops != [] ==>
      && Admissible(led, ops[0])
      && (SpecKeepsSound(led, ops[0]); AdmissibleRun(Spec(led, ops[0]).0, ops[1..]))
  }

  function SpecRun(led: Ledger, ops: seq<Operation>): (r: (Ledger, seq<Reply>))
    requires led.Sound() && AdmissibleRun(led, ops)
    ensures r.0.Sound() && |r.1| == |ops|
    decreases |ops|
  {
    if ops == [] then (led, [])
    else
      SpecKeepsSound(led, ops[0]);
      var (led1, reply) := Spec(led, ops[0]);
      var (led2, replies) := SpecRun(led1, ops[1..]);
      (led2, [reply] + replies)
  }
}
