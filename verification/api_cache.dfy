/**
 * `ApiCache`: an in-memory map from keys to data stamped with an expiry time (milliseconds).
 * A read at a time past the expiry removes the entry and misses.
 */
module Cache {
  import opened Wrappers
  import opened Text
  import opened Json

  datatype Entry = Entry(data: Value, expiry: int)

  const DefaultTtl: int := 300000

  /** The store after `set(key, data, ttl)` at time `now`; `ttl` absent means five minutes. */
  function Write(store: map<string, Entry>, key: string, data: Value, ttl: Option<int>, now: int): map<string, Entry> {
    store[key := Entry(data, now + ttl.GetOr(DefaultTtl))]
  }

  /** What `get(key)` at time `now` returns (`None` for `null`), and the store it leaves. */
  function Read(store: map<string, Entry>, key: string, now: int): (r: (Option<Value>, map<string, Entry>))
    ensures r.0.Some? <==> key in store && now <= store[key].expiry
    ensures r.0.Some? ==> r.0.value == store[key].data && r.1 == store
    ensures r.0.None? ==> r.1 == store - {key}
  {
    if key !in store then (None, store)
    else if now > store[key].expiry then (None, store - {key})
    else (Some(store[key].data), store)
  }

  /** Data written with a time-to-live is read back exactly until that many milliseconds have passed. */
  lemma ReadAfterWrite(store: map<string, Entry>, key: string, data: Value, ttl: Option<int>, written: int, now: int)
    ensures var r := Read(Write(store, key, data, ttl, written), key, now).0;
      (r == Some(data) <==> now - written <= ttl.GetOr(DefaultTtl))
      && (r.None? <==> now - written > ttl.GetOr(DefaultTtl))
  {
  }

  /** Writing one key does not change what any other key reads. */
  lemma ReadOtherKey(store: map<string, Entry>, key: string, other: string, data: Value, ttl: Option<int>, written: int, now: int)
    requires other != key
    ensures Read(Write(store, key, data, ttl, written), other, now).0 == Read(store, other, now).0
  {
  }

  /** A miss is final: once expired, the entry is gone, and every later read misses too. */
  lemma ExpiredStaysGone(store: map<string, Entry>, key: string, now: int, later: int)
    requires key in store && now > store[key].expiry
    ensures Read(Read(store, key, now).1, key, later).0 == None
  {
  }

  class ApiCache {
    var store: map<string, Entry>

    constructor()
      ensures store == map[]
    {
      store := map[];
    }

    /** `ApiCache.set(key, data, ttlMs)` at time `now`. */
    method Set(key: string, data: Value, ttl: Option<int>, now: int)
      modifies this
      ensures store == Write(old(store), key, data, ttl, now)
      ensures key in store && store[key].expiry == now + ttl.GetOr(DefaultTtl)
    {
      var ttlMs := if ttl.Some? then ttl.value else DefaultTtl;
      store := store[key := Entry(data, now + ttlMs)];
    }

    /** `ApiCache.get(key)` at time `now`. */
    method Get(key: string, now: int) returns (r: Option<Value>)
      modifies this
      ensures (r, store) == Read(old(store), key, now)
      ensures r.Some? <==> key in old(store) && now <= old(store)[key].expiry
    {
      if key !in store {
        return None;
      }
      var cached := store[key];
      if now > cached.expiry {
        store := store - {key};
        return None;
      }
      r := Some(cached.data);
    }

    /** `ApiCache.delete(key)`. */
    method Delete(key: string)
      modifies this
      ensures store == old(store) - {key}
    {
      store := store - {key};
    }

    /** `ApiCache.clear()`. */
    method Clear()
      modifies this
      ensures store == map[]
    {
      store := map[];
    }
  }

  /** `ApiCache.generateKey(prefix, ...parts)`: `prefix:part1:part2...`. */
  function GenerateKey(prefix: string, parts: seq<string>): string {
    prefix + ":" + Join(parts, ":")
  }

  /** With colon-free pieces, a key splits back into its prefix and parts; no parts reads as one empty part. */
  lemma GenerateKeySplits(prefix: string, parts: seq<string>)
    requires ':' !in prefix
    requires forall i | 0 <= i < |parts| :: ':' !in parts[i]
    ensures Split(GenerateKey(prefix, parts), ':') == [prefix] + (if parts == [] then [""] else parts)
  {
    var pieces := [prefix] + (if parts == [] then [""] else parts);
    if parts == [] {
      assert GenerateKey(prefix, parts) == Join(pieces, ":");
    } else {
      assert Join(pieces, ":") == prefix + ":" + Join(parts, ":");
    }
    SplitJoin(pieces, ':');
  }

  /** Colon-free keys with at least one part are distinct for distinct prefixes or parts. */
  lemma GenerateKeyInjective(p1: string, parts1: seq<string>, p2: string, parts2: seq<string>)
    requires ':' !in p1 && ':' !in p2 && parts1 != [] && parts2 != []
    requires forall i | 0 <= i < |parts1| :: ':' !in parts1[i]
    requires forall i | 0 <= i < |parts2| :: ':' !in parts2[i]
    requires GenerateKey(p1, parts1) == GenerateKey(p2, parts2)
    ensures p1 == p2 && parts1 == parts2
  {
    GenerateKeySplits(p1, parts1);
    GenerateKeySplits(p2, parts2);
    assert [p1] + parts1 == [p2] + parts2;
    assert parts1 == ([p1] + parts1)[1..];
    assert parts2 == ([p2] + parts2)[1..];
  }
}
