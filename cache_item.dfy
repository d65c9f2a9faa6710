/**
 * `CacheItem`: the envelope stored for every cached value, its validity window,
 * and the byte encoding (bincode) it is stored in.
 *
 * Time is passed in explicitly as `now`, in whole seconds since the epoch; a TTL
 * is a `Duration` of whole seconds.
 */
module CacheItems {
  import opened Wrappers
  import opened Numeric

  /**
   * The longest `std::time::Duration`, in whole seconds, that
   * `chrono::Duration::from_std` accepts (`TimeDelta::MAX` is `i64::MAX`
   * milliseconds).
   */
  const CHRONO_MAX_SECONDS: nat := 9_223_372_036_854_775

  /** The cached data, when it was cached, and for how many seconds it stays fresh. */
  datatype CacheItem<T> = CacheItem(data: T, cachedAt: int, ttl: u64)

  /** `CacheItem::new`, with the clock reading passed in. */
  function NewItem<T>(data: T, ttl: u64, now: int): CacheItem<T>
  {
    CacheItem(data, now, ttl)
  }

  /**
   * `chrono::Duration::from_std(ttl).unwrap_or_default()`: a TTL too long for
   * chrono becomes the default duration, zero.
   */
  function ExpiryOffset(ttl: u64): nat
  {
    if ttl <= CHRONO_MAX_SECONDS then ttl else 0
  }

  /** `cached_at + ttl` as `is_valid` and `remaining_ttl` compute it. */
  function ExpiresAt<T>(item: CacheItem<T>): int
  {
    item.cachedAt + ExpiryOffset(item.ttl)
  }

  /** `CacheItem::is_valid` at time `now`. */
  predicate IsValid<T>(item: CacheItem<T>, now: int)
  {
    now < ExpiresAt(item)
  }

  /** `CacheItem::remaining_ttl` at time `now`: the time left, present only while valid. */
  function RemainingTtl<T>(item: CacheItem<T>, now: int): (r: Option<nat>)
    ensures r.Some? <==> IsValid(item, now)
    ensures r.Some? ==> r.value > 0 && now + r.value == ExpiresAt(item)
  {
    if IsValid(item, now) then Some(ExpiresAt(item) - now) else None
  }

  /**
   * For every TTL chrono's `Duration` can represent, an item is valid exactly
   * before `cached_at + ttl`. The expiry is taken to stay within chrono's
   * `DateTime` range, beyond which the source's addition panics.
   */
  lemma ValidityWindow<T>(item: CacheItem<T>, now: int)
    requires item.ttl <= CHRONO_MAX_SECONDS
    ensures IsValid(item, now) <==> now < item.cachedAt + item.ttl
    ensures RemainingTtl(item, now) == if now < item.cachedAt + item.ttl
                                        then Some(item.cachedAt + item.ttl - now) else None
  {
  }

  /** A TTL of zero ("do not cache") makes an item that is not valid even at its creation. */
  lemma ZeroTtlNeverValid<T>(data: T, now: int, later: int)
    requires now <= later
    ensures !IsValid(NewItem(data, 0, now), later)
    ensures RemainingTtl(NewItem(data, 0, now), later).None?
  {
  }

  /** A fresh item with a positive (representable) TTL is valid when created. */
  lemma NewItemValidIffPositiveTtl<T>(data: T, ttl: u64, now: int)
    requires ttl <= CHRONO_MAX_SECONDS
    ensures IsValid(NewItem(data, ttl, now), now) <==> ttl > 0
  {
  }

  /** Once an item has expired it stays expired. */
  lemma ExpiryIsPermanent<T>(item: CacheItem<T>, now: int, later: int)
    requires now <= later && !IsValid(item, now)
    ensures !IsValid(item, later)
  {
  }

  /** The remaining TTL shrinks by exactly the time that passes. */
  lemma RemainingTtlCountsDown<T>(item: CacheItem<T>, now: int, later: int)
    requires now <= later && IsValid(item, later)
    ensures RemainingTtl(item, now).Some? && RemainingTtl(item, later).Some?
    ensures RemainingTtl(item, now).value == RemainingTtl(item, later).value + (later - now)
  {
  }

  /** A TTL beyond chrono's range counts as zero, so such an item is never valid once created. */
  lemma OverlongTtlNeverValid<T>(data: T, ttl: u64, now: int)
    requires ttl > CHRONO_MAX_SECONDS
    ensures !IsValid(NewItem(data, ttl, now), now)
  {
  }

  // ---------------------------------------------------------------------------
  // The stored bytes
  // ---------------------------------------------------------------------------

  /**
   * What the backend holds under a key: the bincode encoding of an item, or
   * bytes that do not decode as an item of this payload type (corrupt, or
   * written for another type).
   */
  datatype Blob<T> = Encoded(item: CacheItem<T>) | Corrupt(raw: seq<byte>)

  /** `bincode::serialize` of an item. */
  function Encode<T>(item: CacheItem<T>): Blob<T>
  {
    Encoded(item)
  }

  /** `bincode::deserialize`: the item, or nothing for bytes that do not decode. */
  function Decode<T>(bytes: Blob<T>): (r: Option<CacheItem<T>>)
    ensures r.Some? <==> bytes.Encoded?
  {
    match bytes
    case Encoded(item) => Some(item)
    case Corrupt(_) => None
  }

  /** Decoding what was encoded gives the item back. */
  lemma DecodeEncode<T>(item: CacheItem<T>)
    ensures Decode(Encode(item)) == Some(item)
  {
  }
}
