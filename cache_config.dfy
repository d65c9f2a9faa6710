/**
 * `CacheConfig`: whether to cache, how many entries and for how long, and the
 * construction of the backend it describes.
 */
module CacheConfigs {
  import opened Wrappers
  import opened Numeric
  import opened CacheBackends

  /** The backends that exist without optional features. */
  datatype CacheBackendType = InMemory

  /** `CacheConfig`, with the default TTL in whole seconds. */
  datatype CacheConfig = CacheConfig(enabled: bool, maxCapacity: u64, defaultTtl: u64, backendType: CacheBackendType)

  const DEFAULT_CAPACITY: u64 := 1000
  const DEFAULT_TTL: u64 := 3600

  /** `CacheConfig::default()` (and `CacheConfig::new()`): enabled, in memory. */
  function Default(): (c: CacheConfig)
    ensures c.enabled && c.backendType == InMemory
  {
    CacheConfig(true, DEFAULT_CAPACITY, DEFAULT_TTL, InMemory)
  }

  /** `CacheConfig::disabled()`: the default with caching switched off. */
  function Disabled(): (c: CacheConfig)
    ensures !c.enabled
    ensures c == Default().(enabled := false)
  {
    CacheConfig(false, DEFAULT_CAPACITY, DEFAULT_TTL, InMemory)
  }

  /** `CacheConfig::in_memory(max_capacity, default_ttl)`. */
  function InMemoryConfig(maxCapacity: u64, defaultTtl: u64): (c: CacheConfig)
    ensures c.enabled && c.backendType == InMemory
    ensures c.maxCapacity == maxCapacity && c.defaultTtl == defaultTtl
  {
    CacheConfig(true, maxCapacity, defaultTtl, InMemory)
  }

  /** The default configuration is the in-memory one with 1000 entries and one hour. */
  lemma DefaultIsInMemory()
    ensures Default() == InMemoryConfig(1000, 3600)
    ensures Disabled() != Default()
  {
  }

  /**
   * `create_backend`: no backend when caching is disabled, otherwise a fresh,
   * empty in-memory backend with the configured capacity and time to live.
   */
  method CreateBackend<T(==)>(config: CacheConfig) returns (r: Option<InMemoryCacheBackend<T>>)
    ensures r.Some? <==> config.enabled
    ensures r.Some? ==> fresh(r.value) && r.value.Valid() && r.value.store == map[]
    ensures r.Some? ==> r.value.maxCapacity == config.maxCapacity && r.value.timeToLive == Some(config.defaultTtl)
  {
    if !config.enabled {
      return None;
    }
    match config.backendType
    case InMemory =>
      var backend := new InMemoryCacheBackend(config.maxCapacity, Some(config.defaultTtl));
      return Some(backend);
  }
}
