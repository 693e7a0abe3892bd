/** The ephemeral store behind refresh tokens and login budgets: every key expires on its own. */
module KeyValue {
  import opened Wrappers

  type Time = nat
  type Token = nat
  type SessionId = nat

  datatype Session = Session(id: SessionId, user: nat, tenant: nat, issuedAt: Time)

  /** Keys stand for hashes of what they name, assumed not to collide. */
  datatype Key =
    | RefreshKey(token: Token)
    | SessionKey(id: SessionId)
    | AccountKey(email: string)
    | AddressKey(ip: string)

  datatype Value = Record(session: Session) | Pointer(key: Key) | Counter(count: nat)

  datatype Entry = Entry(value: Value, expires: Time)

  type Entries = map<Key, Entry>

  datatype Error = NonPositiveTtl | NotACounter

  predicate Live(s: Entries, key: Key, now: Time) {
    key in s && now < s[key].expires
  }

  /** What a get sees. */
  function At(s: Entries, key: Key, now: Time): Option<Value> {
    if Live(s, key, now) then Some(s[key].value) else None
  }

  function Put(s: Entries, key: Key, value: Value, ttl: Time, now: Time): Entries {
    s[key := Entry(value, now + ttl)]
  }

  /** The counter an increment leaves: a live one keeps its window, any other starts one. */
  function Incremented(s: Entries, key: Key, ttl: Time, now: Time): Entry
    requires Live(s, key, now) ==> s[key].value.Counter?
  {
    if Live(s, key, now) then Entry(Counter(s[key].value.count + 1), s[key].expires) else Entry(Counter(1), now + ttl)
  }

  function Named(keys: seq<Key>): set<Key> {
    set k | k in keys
  }

  class Store {
    var entries: Entries

    constructor ()
      ensures entries == map[]
    {
      entries := map[];
    }

    method Get(key: Key, now: Time) returns (value: Option<Value>)
      ensures value == At(entries, key, now)
    {
      if key !in entries || entries[key].expires <= now { return None; }
      return Some(entries[key].value);
    }

    method Set(key: Key, value: Value, ttl: int, now: Time) returns (r: Result<(), Error>)
      modifies this
      ensures r.Success? <==> ttl > 0
      ensures entries == if ttl > 0 then Put(old(entries), key, value, ttl, now) else old(entries)
    {
      if ttl <= 0 { return Failure(NonPositiveTtl); }
      entries := entries[key := Entry(value, now + ttl)];
      return Success(());
    }

    method Delete(keys: seq<Key>)
      modifies this
      ensures entries == old(entries) - Named(keys)
    {
      for i := 0 to |keys|
        invariant entries == old(entries) - Named(keys[..i])
      {
        entries := entries - {keys[i]};
        assert Named(keys[..i + 1]) == Named(keys[..i]) + {keys[i]} by {
          assert keys[..i + 1] == keys[..i] + [keys[i]];
        }
      }
      assert keys[..|keys|] == keys;
    }

    method Increment(key: Key, ttl: int, now: Time) returns (r: Result<(nat, Time), Error>)
      modifies this
      ensures ttl <= 0 ==> r == Failure(NonPositiveTtl)
      ensures ttl > 0 && Live(old(entries), key, now) && !old(entries)[key].value.Counter? ==> r == Failure(NotACounter)
      ensures r.Failure? ==> entries == old(entries)
      ensures ttl > 0 && (Live(old(entries), key, now) ==> old(entries)[key].value.Counter?) ==>
        var after := Incremented(old(entries), key, ttl, now);
        r == Success((after.value.count, after.expires - now)) && entries == old(entries)[key := after]
    {
      if ttl <= 0 { return Failure(NonPositiveTtl); }
      if key in entries && now < entries[key].expires {
        var entry := entries[key];
        if !entry.value.Counter? { return Failure(NotACounter); }
        var count := entry.value.count + 1;
        entries := entries[key := Entry(Counter(count), entry.expires)];
        return Success((count, entry.expires - now));
      }
      entries := entries[key := Entry(Counter(1), now + ttl)];
      return Success((1, ttl));
    }
  }
}
