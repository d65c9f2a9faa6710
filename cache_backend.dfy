/**
 * The cache backend: the in-memory key-to-bytes store with its hit/miss
 * statistics, and the typed layer (`CacheBackendExt::get`/`set`) that stores
 * encoded `CacheItem`s in it and evicts what is expired or undecodable.
 *
 * The moka cache is a plain map from key strings to stored bytes; time is the
 * explicit `now` of the item model.
 */
module CacheBackends {
  import opened Wrappers
  import opened Numeric
  import opened Errors
  import opened CacheKeys
  import opened CacheItems

  /** The bytes held under each key. */
  type Store<T> = map<string, Blob<T>>

  /** `CacheStats`: the counters a backend reports. */
  datatype CacheStats = CacheStats(hits: nat, misses: nat, itemCount: nat, hitRatio: real, backendInfo: string)

  /** `CacheStats::default()`. */
  function DefaultStats(): (s: CacheStats)
    ensures s.hits == s.misses == s.itemCount == 0 && s.hitRatio == 0.0 && s.backendInfo == "unknown"
  {
    CacheStats(0, 0, 0, 0.0, "unknown")
  }

  const IN_MEMORY_INFO: string := "in-memory"

  /**
   * The hit ratio `update_stats` keeps: hits over all lookups, and 0 before the
   * first lookup.
   */
  function HitRatio(hits: nat, misses: nat): (r: real)
    ensures 0.0 <= r <= 1.0
    ensures hits + misses > 0 ==> r * (hits + misses) as real == hits as real
    ensures hits + misses > 0 ==> (r == 1.0 <==> misses == 0) && (r == 0.0 <==> hits == 0)
  {
    if hits + misses > 0 then
      QuotientFacts(hits as real, misses as real);
      hits as real / (hits + misses) as real
    else 0.0
  }

  /** The share `h / (h + m)` of two non-negative amounts, not both zero. */
  lemma QuotientFacts(h: real, m: real)
    requires 0.0 <= h && 0.0 <= m && h + m > 0.0
    ensures var r := h / (h + m);
            && 0.0 <= r <= 1.0 && r * (h + m) == h
            && (r == 1.0 <==> m == 0.0) && (r == 0.0 <==> h == 0.0)
  {
    var t := h + m;
    var r := h / t;
    assert r * t == h;
    assert h <= t;
    if r == 1.0 { assert h == t; }
  }

  // ---------------------------------------------------------------------------
  // The typed layer, as a function of the store
  // ---------------------------------------------------------------------------

  /** What a typed lookup answers, and the store it leaves behind. */
  datatype Lookup<T> = Lookup(item: Option<CacheItem<T>>, store: Store<T>)

  /**
   * `CacheBackendExt::get` on the key string `key` at time `now`: a stored item
   * that decodes and is still valid is returned; an undecodable or expired one
   * is removed and reported as absent; a missing key changes nothing.
   */
  function TypedGet<T>(store: Store<T>, key: string, now: int): Lookup<T>
  {
    if key !in store then Lookup(None, store)
    else
      match Decode(store[key])
      case None => Lookup(None, store - {key})
      case Some(item) =>
        if IsValid(item, now) then Lookup(Some(item), store) else Lookup(None, store - {key})
  }

  /**
   * A lookup finds an item exactly when the key holds the encoding of an item
   * that is still valid; a hit leaves the store as it was.
   */
  lemma GetFindsExactlyValidItems<T>(store: Store<T>, key: string, now: int)
    ensures var r := TypedGet(store, key, now);
            r.item.Some? <==> key in store && store[key].Encoded? && IsValid(store[key].item, now)
    ensures var r := TypedGet(store, key, now);
            r.item.Some? ==> store[key] == Encode(r.item.value) && r.store == store
  {
  }

  /**
   * A miss leaves the key absent from the store, and every other key holds
   * what it held before.
   */
  lemma MissRemovesOnlyTheKey<T>(store: Store<T>, key: string, now: int)
    ensures var r := TypedGet(store, key, now);
            r.item.None? ==> r.store == store - {key}
    ensures var r := TypedGet(store, key, now);
            forall other :: other != key ==>
              (other in r.store <==> other in store) && (other in store ==> r.store[other] == store[other])
  {
  }

  /** After a miss, asking again misses again and changes nothing. */
  lemma MissIsStable<T>(store: Store<T>, key: string, now: int, later: int)
    requires now <= later
    requires TypedGet(store, key, now).item.None?
    ensures var after := TypedGet(store, key, now).store;
            TypedGet(after, key, later) == Lookup(None, after)
  {
  }

  /**
   * `set` followed by `get` of the same key: the item comes back exactly while
   * it is valid, and is evicted once it is not.
   */
  lemma SetThenGet<T>(store: Store<T>, key: string, item: CacheItem<T>, now: int)
    ensures var stored := store[key := Encode(item)];
            TypedGet(stored, key, now)
            == if IsValid(item, now) then Lookup(Some(item), stored) else Lookup(None, store - {key})
  {
    var stored := store[key := Encode(item)];
    DecodeEncode(item);
    if !IsValid(item, now) {
      assert stored - {key} == store - {key};
    }
  }

  /** Storing under one key does not change what a lookup of another key answers. */
  lemma SetOtherKeyIndependent<T>(store: Store<T>, key: string, blob: Blob<T>, other: string, now: int)
    requires other != key
    ensures TypedGet(store[key := blob], other, now).item == TypedGet(store, other, now).item
  {
  }

  /** A lookup of a hit stays a hit for as long as the item stays valid. */
  lemma HitPersistsWhileValid<T>(store: Store<T>, key: string, now: int, later: int)
    requires now <= later
    requires TypedGet(store, key, now).item.Some?
    requires IsValid(TypedGet(store, key, now).item.value, later)
    ensures TypedGet(store, key, later) == TypedGet(store, key, now)
  {
  }

  // ---------------------------------------------------------------------------
  // The health check's probe
  // ---------------------------------------------------------------------------

  /** How long the health check's probe item stays valid, in seconds. */
  const HEALTH_CHECK_TTL: u64 := 10
  const MISMATCH_MESSAGE: string := "Health check failed: retrieved data doesn't match"
  const NOT_RETRIEVED_MESSAGE: string := "Health check failed: could not retrieve test item"

  /** Storing under a key and then dropping it leaves one entry fewer than the store held. */
  lemma StoreThenDropCount<T>(store: Store<T>, key: string, blob: Blob<T>)
    ensures |store[key := blob]| == |store - {key}| + 1
  {
    var stored := store[key := blob];
    assert stored.Keys == (store - {key}).Keys + {key};
  }

  /** The key the health check writes its probe under. */
  function HealthCheckKey(): (k: CacheKey)
    ensures WellFormed(k) && !IsFactoryKey(k)
  {
    var k := CacheKey("health_check", 0, None, None);
    assert k.dataType[0] == 'h';
    assert "orders"[0] == 'o' && "history"[1] == 'i' && "summary"[0] == 's' && "analysis"[0] == 'a';
    k
  }

  /** The probe never lands on a key that cached market data is stored under. */
  lemma HealthCheckKeyIsolated(k: CacheKey)
    requires IsFactoryKey(k)
    ensures ToString(k) != ToString(HealthCheckKey())
  {
    FactoryKeysAreWellFormed(k);
    ToStringInjective(k, HealthCheckKey());
  }

  // ---------------------------------------------------------------------------
  // The in-memory backend
  // ---------------------------------------------------------------------------

  /**
   * `InMemoryCacheBackend`: the moka cache as the map `store`, and the
   * statistics behind its mutex as fields. The payload type is the one the
   * typed layer stores; bytes that do not decode as it are `Corrupt`.
   */
  class InMemoryCacheBackend<T(==)> {
    var store: Store<T>
    var hits: nat
    var misses: nat
    var itemCount: nat
    var hitRatio: real
    const backendInfo: string
    const maxCapacity: u64
    const timeToLive: Option<u64>

    /** The statistics agree with each other: the ratio is that of the counters. */
    predicate Valid()
      reads this
    {
      hitRatio == HitRatio(hits, misses)
    }

    /** `InMemoryCacheBackend::new`: an empty store and zeroed statistics. */
    constructor (maxCapacity: u64, timeToLive: Option<u64>)
      ensures Valid()
      ensures store == map[] && hits == 0 && misses == 0 && itemCount == 0
      ensures backendInfo == IN_MEMORY_INFO
      ensures this.maxCapacity == maxCapacity && this.timeToLive == timeToLive
    {
      store := map[];
      hits := 0;
      misses := 0;
      itemCount := 0;
      hitRatio := 0.0;
      backendInfo := IN_MEMORY_INFO;
      this.maxCapacity := maxCapacity;
      this.timeToLive := timeToLive;
    }

    /** `InMemoryCacheBackend::default`: 1000 entries, one hour. */
    static method Default() returns (b: InMemoryCacheBackend<T>)
      ensures fresh(b) && b.Valid()
      ensures b.store == map[] && b.hits == 0 && b.misses == 0
      ensures b.maxCapacity == 1000 && b.timeToLive == Some(3600)
    {
      b := new InMemoryCacheBackend(1000, Some(3600));
    }

    /**
     * `update_stats`: one more hit or miss, the entry count refreshed, and the
     * ratio recomputed (there is always at least one lookup by then).
     */
    method UpdateStats(hit: bool)
      requires Valid()
      modifies this
      ensures Valid()
      ensures hits == old(hits) + (if hit then 1 else 0)
      ensures misses == old(misses) + (if hit then 0 else 1)
      ensures itemCount == |store|
      ensures store == old(store)
    {
      if hit {
        hits := hits + 1;
      } else {
        misses := misses + 1;
      }
      itemCount := |store|;
      var total := hits + misses;
      if total > 0 {
        hitRatio := hits as real / total as real;
      }
    }

    /** `get_bytes`: the stored bytes, if any, counted as a hit or a miss. */
    method GetBytes(key: string) returns (r: Option<Blob<T>>)
      requires Valid()
      modifies this
      ensures Valid()
      ensures r.Some? <==> key in old(store)
      ensures r.Some? ==> r.value == old(store)[key]
      ensures store == old(store)
      ensures hits == old(hits) + (if key in store then 1 else 0)
      ensures misses == old(misses) + (if key in store then 0 else 1)
      ensures itemCount == |store|
    {
      if key in store {
        r := Some(store[key]);
        UpdateStats(true);
      } else {
        r := None;
        UpdateStats(false);
      }
    }

    /** `set_bytes`: stores the bytes; the TTL argument is ignored. */
    method SetBytes(key: string, data: Blob<T>, ttl: u64)
      modifies this
      ensures store == old(store)[key := data]
      ensures hits == old(hits) && misses == old(misses)
      ensures itemCount == old(itemCount) && hitRatio == old(hitRatio)
    {
      store := store[key := data];
    }

    /** `remove`: drops the key's entry, if there is one. */
    method Remove(key: CacheKey)
      modifies this
      ensures store == old(store) - {ToString(key)}
      ensures hits == old(hits) && misses == old(misses)
      ensures itemCount == old(itemCount) && hitRatio == old(hitRatio)
    {
      store := store - {ToString(key)};
    }

    /** `clear`: empties the store; the statistics are kept. */
    method Clear()
      modifies this
      ensures store == map[]
      ensures hits == old(hits) && misses == old(misses)
      ensures itemCount == old(itemCount) && hitRatio == old(hitRatio)
    {
      store := map[];
    }

    /** `stats`: a snapshot of the counters, whose ratio is that of its own counts. */
    method Stats() returns (s: CacheStats)
      requires Valid()
      ensures s.hits == hits && s.misses == misses && s.itemCount == itemCount
      ensures s.backendInfo == backendInfo
      ensures s.hitRatio == HitRatio(s.hits, s.misses)
    {
      s := CacheStats(hits, misses, itemCount, hitRatio, backendInfo);
    }

    /**
     * `CacheBackendExt::get`: looks the key's string up, decodes the bytes and
     * returns the item while it is valid; expired or undecodable entries are
     * removed. The lookup counts as a hit whenever bytes are present.
     */
    method Get(key: CacheKey, now: int) returns (r: Option<CacheItem<T>>)
      requires Valid()
      modifies this
      ensures Valid()
      ensures r == TypedGet(old(store), ToString(key), now).item
      ensures store == TypedGet(old(store), ToString(key), now).store
      ensures hits == old(hits) + (if ToString(key) in old(store) then 1 else 0)
      ensures misses == old(misses) + (if ToString(key) in old(store) then 0 else 1)
      ensures itemCount == |old(store)|
    {
      var bytes := GetBytes(ToString(key));
      if bytes.None? {
        return None;
      }
      var decoded := Decode(bytes.value);
      if decoded.None? {
        Remove(key);
        return None;
      }
      var item := decoded.value;
      if IsValid(item, now) {
        return Some(item);
      }
      Remove(key);
      return None;
    }

    /** `CacheBackendExt::set`: stores the item's encoding under the key's string. */
    method Set(key: CacheKey, item: CacheItem<T>)
      modifies this
      ensures store == old(store)[ToString(key) := Encode(item)]
      ensures hits == old(hits) && misses == old(misses)
      ensures itemCount == old(itemCount) && hitRatio == old(hitRatio)
    {
      SetBytes(ToString(key), Encode(item), item.ttl);
    }

    /**
     * `health_check`: stores a probe item made at `createdAt`, reads it back at
     * `checkedAt` and removes it. It succeeds exactly when the probe is still
     * valid when read; either way the probe key is gone afterwards and every
     * other entry is as it was.
     */
    method HealthCheck(probe: T, createdAt: int, checkedAt: int) returns (r: Result<(), TraderGraderError>)
      requires Valid()
      modifies this
      ensures Valid()
      ensures r.Success? <==> checkedAt < createdAt + HEALTH_CHECK_TTL
      ensures r.Failure? ==> r.error == CacheError(NOT_RETRIEVED_MESSAGE)
      ensures store == old(store) - {ToString(HealthCheckKey())}
      ensures hits == old(hits) + 1 && misses == old(misses)
      ensures itemCount == |store| + 1
    {
      var key := HealthCheckKey();
      var item := NewItem(probe, HEALTH_CHECK_TTL, createdAt);
      Set(key, item);
      SetThenGet(old(store), ToString(key), item, checkedAt);
      StoreThenDropCount(old(store), ToString(key), Encode(item));
      var retrieved := Get(key, checkedAt);
      if retrieved.Some? && retrieved.value.data == item.data {
        Remove(key);
        return Success(());
      }
      var message := if retrieved.Some? then MISMATCH_MESSAGE else NOT_RETRIEVED_MESSAGE;
      return Failure(CacheError(message));
    }
  }

  // ---------------------------------------------------------------------------
  // The backend's own tests, run through the contracts
  // ---------------------------------------------------------------------------

  /**
   * Set, get, remove, get on a fresh backend: the item comes back while valid,
   * is gone once removed, and the statistics count one hit, then one miss.
   */
  method SetGetRemoveScenario<T(==)>(key: CacheKey, data: T, now: int)
    returns (first: Option<CacheItem<T>>, afterRemove: Option<CacheItem<T>>, s1: CacheStats, s2: CacheStats)
    ensures first == Some(NewItem(data, 30, now)) && afterRemove.None?
    ensures s1.hits == 1 && s1.misses == 0 && s1.hitRatio > 0.0 && s1.backendInfo == IN_MEMORY_INFO
    ensures s2.hits == 1 && s2.misses == 1 && s2.hitRatio == 0.5
  {
    var cache := new InMemoryCacheBackend<T>(100, Some(60));
    var item := NewItem(data, 30, now);
    cache.Set(key, item);
    SetThenGet(map[], ToString(key), item, now);
    first := cache.Get(key, now);
    s1 := cache.Stats();
    cache.Remove(key);
    afterRemove := cache.Get(key, now);
    s2 := cache.Stats();
  }

  /**
   * An item made 60 s ago with a 30 s TTL is not returned and is evicted; the
   * lookup still counts as a hit, since its bytes were found.
   */
  method ExpiredScenario<T(==)>(key: CacheKey, data: T, now: int)
    returns (r: Option<CacheItem<T>>, left: Store<T>, s: CacheStats)
    ensures r.None? && left == map[]
    ensures s.hits == 1 && s.misses == 0
  {
    var cache := new InMemoryCacheBackend<T>(100, None);
    var item := CacheItem(data, now - 60, 30);
    cache.Set(key, item);
    SetThenGet(map[], ToString(key), item, now);
    r := cache.Get(key, now);
    left := cache.store;
    s := cache.Stats();
  }

  /** After `clear`, neither of two stored keys is found. */
  method ClearScenario<T(==)>(key1: CacheKey, key2: CacheKey, d1: T, d2: T, now: int)
    returns (r1: Option<CacheItem<T>>, r2: Option<CacheItem<T>>)
    ensures r1.None? && r2.None?
  {
    var cache := new InMemoryCacheBackend<T>(100, Some(60));
    cache.Set(key1, NewItem(d1, 30, now));
    cache.Set(key2, NewItem(d2, 30, now));
    cache.Clear();
    r1 := cache.Get(key1, now);
    r2 := cache.Get(key2, now);
  }

  /** The health check of a fresh backend passes when the probe is read back at once. */
  method HealthCheckScenario<T(==)>(probe: T, now: int) returns (r: Result<(), TraderGraderError>)
    ensures r.Success?
  {
    var cache := new InMemoryCacheBackend<T>(100, Some(60));
    r := cache.HealthCheck(probe, now, now);
  }
}
