/** What each session operation answers and stores, in terms of what is visible in the store before it, with
    every field and every deadline written out. */
module SessionAnswers {
  import opened Options
  import opened KeyValueStore
  import opened SessionOperations
  import opened SessionLedger
  import opened SessionRefinement
  import opened SessionTheorems

  /** Access tokens live 15 minutes, refresh tokens and family sets 30 days. */
  lemma TimesToLive()
    ensures ACCESS_TTL_SECONDS == 900.0 && REFRESH_TTL_SECONDS == 2592000.0
  {
  }

  /** The two lookups, in any store: the user only for an access token, the CSRF value for either kind. */
  lemma LookupsAnswer(st: Store, token: Token)
    ensures GetUserIdForAccessToken(st, token).1
            == match Visible(st, TokenKey(Sha256(token)))
               case Record(record, _) => if record.kind == Access then Some(record.userId) else None
               case _ => None
    ensures GetCsrfTokenForAccessToken(st, token).1
            == match Visible(st, TokenKey(Sha256(token)))
               case Record(record, _) => Some(record.csrf)
               case _ => None
  {
  }

  /** The four outcomes of a rotation, in any store. */
  lemma RotationAnswers(st: Store, token: Token, pair: SessionPair)
    ensures RotateRefreshToken(st, token, pair).1
            == match Visible(st, TokenKey(Sha256(token)))
               case Record(record, _) =>
                 if record.kind == Access then NotARefreshToken
                 else if record.used then ReuseDetected(record.familyId)
                 else Issued(pair)
               case _ => InvalidRefreshToken
  {
  }

  /** A login stores the two records of its pair, for 15 minutes and 30 days, and the family's set with just
      these two, for 30 days; nothing else that is visible changes. */
  lemma LoginStores(st: Store, led: Ledger, user: UserId, client: Client, f: FamilyId, pair: SessionPair, k: Key)
    requires Agrees(st, led) && Admissible(led, Login(user, client, f, pair))
    ensures CreateSession(st, user, client, f, pair).1 == Issued(pair)
    ensures Visible(CreateSession(st, user, client, f, pair).0, k)
            == if k == TokenKey(Sha256(pair.access))
               then Record(TokenRecord(user, f, Access, false, client, pair.csrf), Some(st.now + 900.0))
               else if k == TokenKey(Sha256(pair.refresh))
               then Record(TokenRecord(user, f, Refresh, false, client, pair.csrf), Some(st.now + 2592000.0))
               else if k == FamilyKey(f)
               then Members({Sha256(pair.access), Sha256(pair.refresh)}, Some(st.now + 2592000.0))
               else Visible(st, k)
  {
    assert FamilyKey(f) !in st.sets;
    IssueShows(st, user, f, client, pair, k);
  }

  /** A successful rotation marks the record, which lives another 30 days, stores the new pair for the same
      user, family and client with its own CSRF value, and adds it to the set; nothing else changes. */
  lemma RotationStores(st: Store, led: Ledger, token: Token, pair: SessionPair, k: Key)
    requires Agrees(st, led) && led.FreshPair(pair)
    requires Visible(st, TokenKey(Sha256(token))).Record?
    requires var record := Visible(st, TokenKey(Sha256(token))).record; record.kind == Refresh && !record.used
    ensures var was := Visible(st, TokenKey(Sha256(token))).record;
            var index := Visible(st, FamilyKey(was.familyId));
            && index.Members?
            && Visible(RotateRefreshToken(st, token, pair).0, k)
               == if k == TokenKey(Sha256(token))
                  then Record(was.(used := true), Some(st.now + 2592000.0))
                  else if k == TokenKey(Sha256(pair.access))
                  then Record(TokenRecord(was.userId, was.familyId, Access, false, was.client, pair.csrf),
                              Some(st.now + 900.0))
                  else if k == TokenKey(Sha256(pair.refresh))
                  then Record(TokenRecord(was.userId, was.familyId, Refresh, false, was.client, pair.csrf),
                              Some(st.now + 2592000.0))
                  else if k == FamilyKey(was.familyId)
                  then Members(index.hashes + {Sha256(pair.access), Sha256(pair.refresh)},
                               Some(st.now + 2592000.0))
                  else Visible(st, k)
  {
    var key := TokenKey(Sha256(token));
    var was := Visible(st, key).record;
    assert Visible(st, key) == led.Render(key);
    LiveRecordIsIndexed(st, led, Sha256(token));
    var marked := st.Set(key, was.(used := true), Some(REFRESH_TTL_SECONDS));
    assert RotateRefreshToken(st, token, pair).0 == IssuePair(marked, was.userId, was.familyId, was.client, pair);
    MarkedShows(st, led, key, was.familyId, was.(used := true));
    IssueShows(marked, was.userId, was.familyId, was.client, pair, k);
  }

  /** Rewriting a record leaves the family's set and every other key as they were. */
  lemma MarkedShows(st: Store, led: Ledger, key: Key, f: FamilyId, record: TokenRecord)
    requires Agrees(st, led) && key.TokenKey? && Visible(st, FamilyKey(f)).Members?
    ensures var marked := st.Set(key, record, Some(REFRESH_TTL_SECONDS));
            && (forall k :: Visible(marked, k)
                            == if k == key then Record(record, Some(st.now + 2592000.0)) else Visible(st, k))
            && (forall k <- marked.values :: k.TokenKey?)
            && FamilyKey(f) in marked.sets && marked.sets[FamilyKey(f)] == Visible(st, FamilyKey(f)).hashes
  {
  }
}
