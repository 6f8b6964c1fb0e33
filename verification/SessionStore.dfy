/** The session store as the object that issues commands to the key-value store one after the other.
    Its ghost ledger is the history of every login; each method is specified by the history alone. */
module SessionStores {
  import opened Options
  import opened KeyValueStore
  import opened SessionOperations
  import opened SessionLedger
  import opened SessionRefinement

  class SessionStore {
    const store: FakeAsyncRedis
    ghost var ledger: Ledger

    ghost predicate Valid()
      reads this, store
    {
      Agrees(store.State(), ledger)
    }

    /** A session store may be put on any key-value store together with the history that led to it. */
    constructor (store: FakeAsyncRedis, ghost history: Ledger)
      requires Agrees(store.State(), history)
      ensures Valid() && this.store == store && ledger == history
    {
      this.store := store;
      ledger := history;
    }

    /** Time passes between operations: the clock of the store moves on, nothing is written. */
    method TimePasses(seconds: Time)
      requires Valid() && seconds >= 0.0
      modifies this, store
      ensures Valid() && ledger == old(ledger).(now := old(ledger).now + seconds)
      ensures store.State() == old(store.State()).Tick(seconds)
    {
      TickAgrees(store.State(), ledger, seconds);
      store.now := store.now + seconds;
      ledger := ledger.(now := ledger.now + seconds);
    }

    method IssuePair(user: UserId, family: FamilyId, client: Client, pair: SessionPair)
      modifies store
      ensures store.State() == SessionOperations.IssuePair(old(store.State()), user, family, client, pair)
    {
      var accessHash := Sha256(pair.access);
      var refreshHash := Sha256(pair.refresh);
      var accessRecord := TokenRecord(user, family, Access, false, client, pair.csrf);
      var refreshRecord := TokenRecord(user, family, Refresh, false, client, pair.csrf);
      store.Set(TokenKey(accessHash), accessRecord, Some(ACCESS_TTL_SECONDS));
      store.Set(TokenKey(refreshHash), refreshRecord, Some(REFRESH_TTL_SECONDS));
      store.Sadd(FamilyKey(family), {accessHash, refreshHash});
      store.Expire(FamilyKey(family), REFRESH_TTL_SECONDS);
    }

    /** `family` and `pair` are the fresh names the source draws. */
    method CreateSession(user: UserId, client: Client, family: FamilyId, pair: SessionPair)
      returns (issued: SessionPair)
      requires Valid() && ledger.FreshFamily(family) && ledger.FreshPair(pair)
      modifies this, store
      ensures Valid() && issued == pair
      ensures ledger == old(ledger).Extend(family, LoginRecord(user, client, []), pair)
    {
      LoginAgrees(store.State(), ledger, user, client, family, pair);
      IssuePair(user, family, client, pair);
      ledger := ledger.Extend(family, LoginRecord(user, client, []), pair);
      issued := pair;
    }

    method GetUserIdForAccessToken(token: Token) returns (user: Option<UserId>)
      requires Valid()
      modifies store
      ensures Valid()
      ensures user == if ledger.Live(token) && ledger.places[token].kind.Access?
                      then Some(ledger.logins[ledger.places[token].family].user) else None
      ensures (store.State(), user) == SessionOperations.GetUserIdForAccessToken(old(store.State()), token)
    {
      ReadsAgree(store.State(), ledger, token);
      var raw := store.Get(TokenKeyOf(token));
      if raw.None? {
        return None;
      }
      if raw.value.kind != Access {
        return None;
      }
      return Some(raw.value.userId);
    }

    method GetCsrfTokenForAccessToken(token: Token) returns (csrf: Option<Token>)
      requires Valid()
      modifies store
      ensures Valid()
      ensures csrf == if ledger.Live(token)
                      then var place := ledger.places[token];
                           Some(ledger.logins[place.family].chain[place.index].pair.csrf)
                      else None
      ensures (store.State(), csrf) == SessionOperations.GetCsrfTokenForAccessToken(old(store.State()), token)
    {
      ReadsAgree(store.State(), ledger, token);
      var raw := store.Get(TokenKeyOf(token));
      return if raw.None? then None else Some(raw.value.csrf);
    }

    method RevokeFamily(family: FamilyId)
      requires Valid()
      modifies this, store
      ensures Valid() && ledger == old(ledger).Kill(family)
      ensures store.State() == SessionOperations.RevokeFamily(old(store.State()), family)
    {
      RevokeAgrees(store.State(), ledger, family);
      var members := store.Smembers(FamilyKey(family));
      if members != {} {
        store.Delete(TokenKeys(members));
      }
      store.Delete({FamilyKey(family)});
      ledger := ledger.Kill(family);
    }

    /** Answers as the history does: a rotation succeeds for the last refresh token of a live chain only. */
    method RotateRefreshToken(token: Token, pair: SessionPair) returns (reply: Reply)
      requires Valid() && ledger.FreshPair(pair)
      modifies this, store
      ensures Valid()
      ensures (ledger, reply) == Spec(old(ledger), Rotate(token, pair))
      ensures (store.State(), reply) == SessionOperations.RotateRefreshToken(old(store.State()), token, pair)
    {
      StepRefines(store.State(), ledger, Rotate(token, pair));
      ReadsAgree(store.State(), ledger, token);
      var raw := store.Get(TokenKeyOf(token));
      if raw.None? {
        return InvalidRefreshToken;
      }
      var record := raw.value;
      if record.kind != Refresh {
        return NotARefreshToken;
      }
      if record.used {
        RevokeFamily(record.familyId);
        return ReuseDetected(record.familyId);
      }
      record := record.(used := true);
      store.Set(TokenKeyOf(token), record, Some(REFRESH_TTL_SECONDS));
      IssuePair(record.userId, record.familyId, record.client, pair);
      ledger := Spec(ledger, Rotate(token, pair)).0;
      return Issued(pair);
    }

    method RevokeSessionByRefreshToken(token: Token)
      requires Valid()
      modifies this, store
      ensures Valid()
      ensures ledger == if old(ledger).Live(token) then old(ledger).Kill(old(ledger).places[token].family)
                        else old(ledger)
      ensures store.State() == SessionOperations.RevokeSessionByRefreshToken(old(store.State()), token)
    {
      ReadsAgree(store.State(), ledger, token);
      var raw := store.Get(TokenKeyOf(token));
      if raw.None? {
        return;
      }
      RevokeFamily(raw.value.familyId);
    }
  }
}
