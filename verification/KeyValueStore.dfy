/** The key-value store under the sessions: the commands of the in-memory store
    with a controllable clock, which purges an expired key only when it is read. */
module KeyValueStore {
  import opened Options

  /** SHA-256, idealised as an injective function. */
  datatype TokenHash = Sha256(token: Token)

  /** The two key prefixes, `session:token:` and `session:family:`. */
  datatype Key = TokenKey(hash: TokenHash) | FamilyKey(family: FamilyId)

  datatype TokenKind = Access | Refresh

  datatype Client = Client(ipAddress: Option<string>, userAgent: Option<string>)

  /** The record kept (as JSON) under a token key. */
  datatype TokenRecord = TokenRecord(
    userId: UserId, familyId: FamilyId, kind: TokenKind, used: bool, client: Client, csrf: Token)

  type Time = real

  /** The whole state of the store. */
  datatype Store = Store(
    values: map<Key, TokenRecord>, expiresAt: map<Key, Time>, sets: map<Key, set<TokenHash>>, now: Time)
  {
    predicate IsExpired(key: Key) {
      key in expiresAt && now >= expiresAt[key]
    }

    function Delete(keys: set<Key>): Store {
      Store(values - keys, expiresAt - keys, sets - keys, now)
    }

    function Purge(key: Key): Store {
      if IsExpired(key) then Delete({key}) else this
    }

    function Get(key: Key): (Store, Option<TokenRecord>) {
      var purged := Purge(key);
      (purged, if key in purged.values then Some(purged.values[key]) else None)
    }

    function Set(key: Key, value: TokenRecord, ex: Option<Time>): Store {
      this.(values := values[key := value],
            expiresAt := if ex.Some? then expiresAt[key := now + ex.value] else expiresAt)
    }

    function Sadd(key: Key, added: set<TokenHash>): Store {
      this.(sets := sets[key := (if key in sets then sets[key] else {}) + added])
    }

    function Smembers(key: Key): (Store, set<TokenHash>) {
      var purged := Purge(key);
      (purged, if key in purged.sets then purged.sets[key] else {})
    }

    function Expire(key: Key, seconds: Time): Store {
      this.(expiresAt := expiresAt[key := now + seconds])
    }

    function Tick(seconds: Time): Store {
      this.(now := now + seconds)
    }
  }

  /** What a reader can still see under a key: nothing once its deadline has passed. */
  datatype Slot =
    | Absent
    | Record(record: TokenRecord, deadline: Option<Time>)
    | Members(hashes: set<TokenHash>, deadline: Option<Time>)

  function Visible(st: Store, key: Key): Slot {
    var deadline := if key in st.expiresAt then Some(st.expiresAt[key]) else None;
    if st.IsExpired(key) then Absent
    else if key in st.values then Record(st.values[key], deadline)
    else if key in st.sets then Members(st.sets[key], deadline)
    else Absent
  }

  /** The store kept as three dictionaries that its methods update in place. */
  class FakeAsyncRedis {
    var values: map<Key, TokenRecord>
    var expiresAt: map<Key, Time>
    var sets: map<Key, set<TokenHash>>
    var now: Time

    function State(): Store
      reads this
    {
      Store(values, expiresAt, sets, now)
    }

    constructor (start: Time)
      ensures State() == Store(map[], map[], map[], start)
    {
      values, expiresAt, sets, now := map[], map[], map[], start;
    }

    method PurgeIfExpired(key: Key)
      modifies this
      ensures State() == old(State()).Purge(key)
      ensures var gone := if key in old(expiresAt) && now >= old(expiresAt)[key] then {key} else {};
              && now == old(now) && values == old(values) - gone && sets == old(sets) - gone
              && expiresAt == old(expiresAt) - gone
    {
      if key in expiresAt && now >= expiresAt[key] {
        values := values - {key};
        expiresAt := expiresAt - {key};
        sets := sets - {key};
      }
    }

    method Get(key: Key) returns (value: Option<TokenRecord>)
      modifies this
      ensures (State(), value) == old(State()).Get(key)
      ensures value == if key in old(values) && !(key in old(expiresAt) && now >= old(expiresAt)[key])
                       then Some(old(values)[key]) else None
    {
      PurgeIfExpired(key);
      value := if key in values then Some(values[key]) else None;
    }

    method Set(key: Key, value: TokenRecord, ex: Option<Time>)
      modifies this
      ensures State() == old(State()).Set(key, value, ex)
      ensures values == old(values)[key := value] && sets == old(sets) && now == old(now)
      ensures expiresAt == match ex case Some(seconds) => old(expiresAt)[key := now + seconds]
                                    case None => old(expiresAt)
    {
      values := values[key := value];
      if ex.Some? {
        expiresAt := expiresAt[key := now + ex.value];
      }
    }

    method Delete(keys: set<Key>)
      modifies this
      ensures State() == old(State()).Delete(keys)
      ensures now == old(now) && values == old(values) - keys && sets == old(sets) - keys
      ensures expiresAt == old(expiresAt) - keys
    {
      var left := keys;
      while left != {}
        invariant left <= keys
        invariant State() == old(State()).Delete(keys - left)
        decreases left
      {
        var key :| key in left;
        values := values - {key};
        expiresAt := expiresAt - {key};
        sets := sets - {key};
        left := left - {key};
        assert keys - left == (keys - (left + {key})) + {key};
      }
    }

    method Sadd(key: Key, added: set<TokenHash>)
      modifies this
      ensures State() == old(State()).Sadd(key, added)
      ensures values == old(values) && expiresAt == old(expiresAt) && now == old(now)
      ensures sets == old(sets)[key := (if key in old(sets) then old(sets)[key] else {}) + added]
    {
      var members := if key in sets then sets[key] else {};
      sets := sets[key := members + added];
    }

    method Smembers(key: Key) returns (members: set<TokenHash>)
      modifies this
      ensures (State(), members) == old(State()).Smembers(key)
      ensures members == if key in old(sets) && !(key in old(expiresAt) && now >= old(expiresAt)[key])
                         then old(sets)[key] else {}
    {
      PurgeIfExpired(key);
      members := if key in sets then sets[key] else {};
    }

    method Expire(key: Key, seconds: Time)
      modifies this
      ensures State() == old(State()).Expire(key, seconds)
      ensures values == old(values) && sets == old(sets) && now == old(now)
      ensures expiresAt == old(expiresAt)[key := now + seconds]
    {
      expiresAt := expiresAt[key := now + seconds];
    }
  }
}
