/** The in-process TTL cache (backend/src/services/cache.service.ts): a map from
    string keys to entries that carry an absolute expiry instant in milliseconds,
    evicted lazily when `get` or `has` finds them stale. The clock is a parameter. */
module Cache {
  import opened Wrappers

  const MS_PER_MINUTE: int := 60 * 1000

  /** The default TTL the exported `cacheService` singleton is built with. */
  const DEFAULT_TTL_MINUTES: int := 5

  /** A stored value and the last instant (inclusive) at which it is still fresh. */
  datatype Entry<V> = Entry(data: V, expiresAt: int)

  predicate Distinct(s: seq<string>) {
    forall i, j :: 0 <= i < j < |s| ==> s[i] != s[j]
  }

  /** The entry for `key` exists and its expiry instant has passed. */
  predicate Stale<V>(m: map<string, Entry<V>>, key: string, now: int) {
    key in m && now > m[key].expiresAt
  }

  /** What `get(key)` hands back at instant `now`. */
  function Lookup<V>(m: map<string, Entry<V>>, key: string, now: int): Option<V> {
    if key in m && now <= m[key].expiresAt then Some(m[key].data) else None
  }

  /** The map after `get(key)` or `has(key)` at `now`: a stale entry for `key` is dropped. */
  function AfterRead<V>(m: map<string, Entry<V>>, key: string, now: int): map<string, Entry<V>> {
    if Stale(m, key, now) then m - {key} else m
  }

  /** The TTL in milliseconds that `set` applies: a missing or zero `ttlMinutes` is
      falsy and selects the cache-wide default. */
  function TtlMs(ttlMinutes: Option<int>, defaultTtl: int): int {
    if ttlMinutes.Some? && ttlMinutes.value != 0 then ttlMinutes.value * MS_PER_MINUTE else defaultTtl
  }

  /** `order` with `key` taken out. */
  function Without(order: seq<string>, key: string): (r: seq<string>)
    ensures forall k :: k in r <==> k in order && k != key
    ensures Distinct(order) ==> Distinct(r)
    ensures |r| <= |order|
  {
    if order == [] then []
    else
      var rest := Without(order[1..], key);
      if order[0] == key then rest
      else
        assert Distinct(order) ==> order[0] !in order[1..];
        [order[0]] + rest
  }

  /** The keys of `order` whose entries are fresh at `now`, in the same order. */
  function FreshKeys<V>(order: seq<string>, m: map<string, Entry<V>>, now: int): (r: seq<string>)
    ensures forall k :: k in r <==> k in order && Lookup(m, k, now).Some?
    ensures Distinct(order) ==> Distinct(r)
    ensures |r| <= |order|
  {
    if order == [] then []
    else
      var init := order[..|order| - 1];
      var last := order[|order| - 1];
      assert order == init + [last];
      var rest := FreshKeys(init, m, now);
      assert Distinct(order) ==> Distinct(init) && last !in init;
      if Lookup(m, last, now).Some? then rest + [last] else rest
  }

  /** The cache. `entries` is the JavaScript `Map`; `order` is the order in which that
      `Map` enumerates its keys (insertion order; overwriting keeps the position). */
  class CacheService<V> {
    var entries: map<string, Entry<V>>
    var order: seq<string>
    const defaultTtl: int

    ghost predicate Valid()
      reads this
    {
      Distinct(order) && forall k :: k in order <==> k in entries
    }

    /** `new CacheService(defaultTTLMinutes)`; the source's default argument is 5. */
    constructor (defaultTtlMinutes: int := DEFAULT_TTL_MINUTES)
      ensures Valid()
      ensures entries == map[] && order == []
      ensures defaultTtl == defaultTtlMinutes * MS_PER_MINUTE
    {
      entries := map[];
      order := [];
      defaultTtl := defaultTtlMinutes * MS_PER_MINUTE;
    }

    /** Stores `data` under `key`, replacing any entry, to expire `TtlMs` after `now`. */
    method Set(key: string, data: V, ttlMinutes: Option<int>, now: int)
      requires Valid()
      modifies this
      ensures Valid()
      ensures entries == old(entries)[key := Entry(data, now + TtlMs(ttlMinutes, defaultTtl))]
      ensures order == if key in old(entries) then old(order) else old(order) + [key]
    {
      var ttl := TtlMs(ttlMinutes, defaultTtl);
      if key !in entries {
        order := order + [key];
      }
      entries := entries[key := Entry(data, now + ttl)];
    }

    /** Returns the value of a fresh entry; a stale entry is removed and reads as absent. */
    method Get(key: string, now: int) returns (r: Option<V>)
      requires Valid()
      modifies this
      ensures Valid()
      ensures r == Lookup(old(entries), key, now)
      ensures entries == AfterRead(old(entries), key, now)
      ensures order == if Stale(old(entries), key, now) then Without(old(order), key) else old(order)
    {
      if key !in entries {
        return None;
      }
      var entry := entries[key];
      if now > entry.expiresAt {
        entries := entries - {key};
        order := Without(order, key);
        return None;
      }
      return Some(entry.data);
    }

    /** The same freshness test as `Get`, with the same eviction, returning only whether
        a value would be returned. */
    method Has(key: string, now: int) returns (b: bool)
      requires Valid()
      modifies this
      ensures Valid()
      ensures b == Lookup(old(entries), key, now).Some?
      ensures entries == AfterRead(old(entries), key, now)
      ensures order == if Stale(old(entries), key, now) then Without(old(order), key) else old(order)
    {
      if key !in entries {
        return false;
      }
      if now > entries[key].expiresAt {
        entries := entries - {key};
        order := Without(order, key);
        return false;
      }
      return true;
    }

    /** Empties the cache. */
    method Clear()
      requires Valid()
      modifies this
      ensures Valid()
      ensures entries == map[] && order == []
    {
      entries := map[];
      order := [];
    }

    /** Removes `key`, fresh or stale, and reports whether it was present. */
    method Delete(key: string) returns (deleted: bool)
      requires Valid()
      modifies this
      ensures Valid()
      ensures deleted == (key in old(entries))
      ensures entries == old(entries) - {key}
      ensures order == Without(old(order), key)
    {
      deleted := key in entries;
      entries := entries - {key};
      order := Without(order, key);
    }

    /** Lists the keys that are fresh at `now`, in enumeration order, without
        evicting anything. */
    method GetStats(now: int) returns (size: nat, keys: seq<string>)
      requires Valid()
      ensures keys == FreshKeys(order, entries, now)
      ensures forall k :: k in keys <==> Lookup(entries, k, now).Some?
      ensures Distinct(keys)
      ensures size == |keys|
    {
      var validKeys: seq<string> := [];
      var i := 0;
      while i < |order|
        invariant 0 <= i <= |order|
        invariant validKeys == FreshKeys(order[..i], entries, now)
      {
        var key := order[i];
        assert order[..i + 1][..i] == order[..i];
        if now <= entries[key].expiresAt {
          validKeys := validKeys + [key];
        }
        i := i + 1;
      }
      assert order[..i] == order;
      size := |validKeys|;
      keys := validKeys;
    }
  }

  /** A `set` is readable up to and including its expiry instant `now + TTL`. */
  lemma SetThenGetFresh<V>(m: map<string, Entry<V>>, key: string, data: V, ttlMinutes: Option<int>,
                           defaultTtl: int, now: int, later: int)
    requires later <= now + TtlMs(ttlMinutes, defaultTtl)
    ensures Lookup(m[key := Entry(data, now + TtlMs(ttlMinutes, defaultTtl))], key, later) == Some(data)
  {
  }

  /** Past the expiry instant a read returns nothing and removes exactly that key. */
  lemma SetThenGetStale<V>(m: map<string, Entry<V>>, key: string, data: V, ttlMinutes: Option<int>,
                           defaultTtl: int, now: int, later: int)
    requires later > now + TtlMs(ttlMinutes, defaultTtl)
    ensures var m' := m[key := Entry(data, now + TtlMs(ttlMinutes, defaultTtl))];
            Lookup(m', key, later) == None && AfterRead(m', key, later) == m - {key}
  {
  }

  /** A missing or zero TTL selects the default; any other TTL is taken in minutes. */
  lemma DefaultTtlWhenFalsy(ttlMinutes: Option<int>, defaultTtl: int)
    ensures ttlMinutes == None || ttlMinutes == Some(0) ==> TtlMs(ttlMinutes, defaultTtl) == defaultTtl
    ensures ttlMinutes.Some? && ttlMinutes.value != 0 ==> TtlMs(ttlMinutes, defaultTtl) == ttlMinutes.value * 60000
  {
  }

  /** `export const cacheService = new CacheService(5)`: the shared cache starts empty,
      and an entry stored without a TTL, or with a TTL of 0, lives 300000 ms. */
  method SharedCache<V>() returns (c: CacheService<V>)
    ensures fresh(c) && c.Valid()
    ensures c.entries == map[] && c.order == []
    ensures c.defaultTtl == 300000
    ensures TtlMs(None, c.defaultTtl) == 300000 && TtlMs(Some(0), c.defaultTtl) == 300000
  {
    c := new CacheService(5);
  }

  /** The second of two writes to one key is the one read back. */
  lemma OverwriteWins<V>(m: map<string, Entry<V>>, key: string, v1: V, v2: V, e1: int, e2: int, now: int)
    requires now <= e2
    ensures Lookup(m[key := Entry(v1, e1)][key := Entry(v2, e2)], key, now) == Some(v2)
  {
  }

  /** A read leaves every other key as it was, and an absent key changes nothing. */
  lemma ReadTouchesOnlyItsKey<V>(m: map<string, Entry<V>>, key: string, now: int)
    ensures key !in m ==> Lookup(m, key, now) == None && AfterRead(m, key, now) == m
    ensures forall k :: k != key ==> (k in AfterRead(m, key, now) <==> k in m)
    ensures forall k :: k != key && k in m ==> AfterRead(m, key, now)[k] == m[k]
  {
  }

  /** A client's view: `set` then `get` within the TTL returns the value; a second
      `set` under the same key wins; `delete` then `has` is false. */
  method ClientScenario(v1: int, v2: int, now: int)
  {
    var c := new CacheService<int>();
    c.Set("k", v1, None, now);
    var r := c.Get("k", now + 300000);
    assert r == Some(v1);
    c.Set("k", v2, Some(1), now);
    r := c.Get("k", now);
    assert r == Some(v2);
    var size, keys := c.GetStats(now);
    assert keys == ["k"];
    var gone := c.Delete("k");
    assert gone;
    var present := c.Has("k", now);
    assert !present;
  }
}
