/** The session store's operations, each one a composition of store commands with the clock fixed. */
module SessionOperations {
  import opened Options
  import opened KeyValueStore

  const ACCESS_TTL_SECONDS: Time := 15.0 * 60.0
  const REFRESH_TTL_SECONDS: Time := 30.0 * 24.0 * 60.0 * 60.0

  datatype SessionPair = SessionPair(access: Token, refresh: Token, csrf: Token)

  /** What an operation returns or raises. */
  datatype Reply =
    | Issued(pair: SessionPair)
    | InvalidRefreshToken          // ValueError("invalid or expired refresh token")
    | NotARefreshToken             // ValueError("not a refresh token")
    | ReuseDetected(family: FamilyId)
    | Resolved(user: Option<UserId>)
    | CsrfIs(csrf: Option<Token>)
    | Done

  function TokenKeyOf(token: Token): Key {
    TokenKey(Sha256(token))
  }

  function FreshRecord(user: UserId, family: FamilyId, kind: TokenKind, client: Client, csrf: Token): TokenRecord {
    TokenRecord(user, family, kind, false, client, csrf)
  }

  function IssuePair(st: Store, user: UserId, family: FamilyId, client: Client, pair: SessionPair): Store {
    var accessRecord := FreshRecord(user, family, Access, client, pair.csrf);
    var refreshRecord := FreshRecord(user, family, Refresh, client, pair.csrf);
    st.Set(TokenKeyOf(pair.access), accessRecord, Some(ACCESS_TTL_SECONDS))
      .Set(TokenKeyOf(pair.refresh), refreshRecord, Some(REFRESH_TTL_SECONDS))
      .Sadd(FamilyKey(family), {Sha256(pair.access), Sha256(pair.refresh)})
      .Expire(FamilyKey(family), REFRESH_TTL_SECONDS)
  }

  function CreateSession(st: Store, user: UserId, client: Client, family: FamilyId, pair: SessionPair): (Store, Reply) {
    (IssuePair(st, user, family, client, pair), Issued(pair))
  }

  function GetUserIdForAccessToken(st: Store, token: Token): (Store, Option<UserId>) {
    var (st, raw) := st.Get(TokenKeyOf(token));
    (st, if raw.Some? && raw.value.kind.Access? then Some(raw.value.userId) else None)
  }

  function GetCsrfTokenForAccessToken(st: Store, token: Token): (Store, Option<Token>) {
    var (st, raw) := st.Get(TokenKeyOf(token));
    (st, if raw.Some? then Some(raw.value.csrf) else None)
  }

  function TokenKeys(hashes: set<TokenHash>): set<Key> {
    set h | h in hashes :: TokenKey(h)
  }

  function RevokeFamily(st: Store, family: FamilyId): Store {
    var (st, members) := st.Smembers(FamilyKey(family));
    (if members != {} then st.Delete(TokenKeys(members)) else st).Delete({FamilyKey(family)})
  }

  function RotateRefreshToken(st: Store, token: Token, pair: SessionPair): (Store, Reply) {
    var (st, raw) := st.Get(TokenKeyOf(token));
    if raw.None? then (st, InvalidRefreshToken)
    else if raw.value.kind != Refresh then (st, NotARefreshToken)
    else if raw.value.used then (RevokeFamily(st, raw.value.familyId), ReuseDetected(raw.value.familyId))
    else
      var record := raw.value.(used := true);
      var st := st.Set(TokenKeyOf(token), record, Some(REFRESH_TTL_SECONDS));
      (IssuePair(st, record.userId, record.familyId, record.client, pair), Issued(pair))
  }

  function RevokeSessionByRefreshToken(st: Store, token: Token): Store {
    var (st, raw) := st.Get(TokenKeyOf(token));
    if raw.None? then st else RevokeFamily(st, raw.value.familyId)
  }

  /** One atomic step of a run. The fresh names an operation would draw are part of the step. */
  datatype Operation =
    | Login(user: UserId, client: Client, family: FamilyId, pair: SessionPair)
    | Rotate(token: Token, pair: SessionPair)
    | Revoke(family: FamilyId)
    | Logout(token: Token)
    | WhoIs(token: Token)
    | CsrfOf(token: Token)
    | Tick(seconds: Time)

  function Do(st: Store, op: Operation): (Store, Reply) {
    match op
    case Login(user, client, family, pair) => CreateSession(st, user, client, family, pair)
    case Rotate(token, pair) => RotateRefreshToken(st, token, pair)
    case Revoke(family) => (RevokeFamily(st, family), Done)
    case Logout(token) => (RevokeSessionByRefreshToken(st, token), Done)
    case WhoIs(token) => var (st, user) := GetUserIdForAccessToken(st, token); (st, Resolved(user))
    case CsrfOf(token) => var (st, csrf) := GetCsrfTokenForAccessToken(st, token); (st, CsrfIs(csrf))
    case Tick(seconds) => (st.Tick(seconds), Done)
  }

  function Run(st: Store, ops: seq<Operation>): (Store, seq<Reply>)
    ensures |Run(st, ops).1| == |ops|
    decreases |ops|
  {
    if ops == [] then (st, [])
    else
      var (st1, reply) := Do(st, ops[0]);
      var (st2, replies) := Run(st1, ops[1..]);
      (st2, [reply] + replies)
  }

  function EmptyStore(start: Time): Store {
    Store(map[], map[], map[], start)
  }
}
