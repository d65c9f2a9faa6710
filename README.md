# tradergrader cache, retry policy and error codes, in Dafny

This project models the parts of tradergrader (an MCP server for EVE Online
market data) that decide what is cached, for how long, and how requests to
the ESI API are retried. Its properties are proved with Dafny.

- **Response cache** (`src/cache.rs`):
  - `CacheKey` builds a string key from a data type, region, type id and params.
  - `CacheItem` is the cached envelope. It is valid while `now < cached_at + ttl`.
  - `EsiHeaderParser` turns a response's `Cache-Control` header into a TTL. It reads the `max-age`, `no-cache` and `no-store` directives of section 5.2.2 of RFC 9111, then clamps the header TTL against a table of recommendations per category.
  - `CacheBackendExt::get`/`set` is the typed layer. It stores encoded items, and evicts entries that are expired or undecodable.
  - `InMemoryCacheBackend` is a key-to-bytes store with hit/miss statistics and a health check.
  - `CacheConfig` describes the backend to build.
- **Rate limiting and retries** (`src/rate_limit.rs`):
  - the `RateLimitConfig` presets;
  - `EsiRateLimiter`'s construction, its retry decision and its capped exponential backoff;
  - parsing of ESI's rate-limit headers (`Retry-After` takes only the delay-seconds form of section 10.2.3 of RFC 9110);
  - the `execute_with_retry` loop.
- **Errors** (`src/error.rs`): each error variant's JSON-RPC 2.0 error code (section 5.1 of the JSON-RPC 2.0 Specification), and the `From` conversions.

Modules, one per file:

| file | module | models |
|---|---|---|
| `wrappers.dfy` | `Wrappers` | `Option`, `Result` |
| `numeric.dfy` | `Numeric` | `u32`/`u64`/`i32` ranges, `saturating_mul`, `saturating_pow`, wrapping multiplication |
| `text.dfy` | `Text` | `str::split`, `str::trim`, decimal printing (`{}` of integers), `str::parse::<u64>` |
| `headers.dfy` | `Headers` | `HeaderMap` and `HeaderValue::to_str` |
| `errors.dfy` | `Errors` | `TraderGraderError`, `to_rpc_code`, `From<String>`/`From<&str>` |
| `cache_key.dfy` | `CacheKeys` | `CacheKey` |
| `cache_item.dfy` | `CacheItems` | `CacheItem`, the bincode encoding |
| `ttl_policy.dfy` | `EsiHeaderParser` | `EsiHeaderParser` |
| `cache_backend.dfy` | `CacheBackends` | `CacheStats`, `CacheBackendExt::get`/`set`, `InMemoryCacheBackend` |
| `cache_config.dfy` | `CacheConfigs` | `CacheConfig` |
| `rate_limit.dfy` | `RateLimit` | `RateLimitConfig`, `EsiRateLimiter`, `EsiRateLimitInfo` |

Modelling choices:
- **Time.** Time is an explicit `now`, in whole seconds; every TTL and duration is whole seconds or milliseconds. `chrono::Duration::from_std(ttl).unwrap_or_default()` is modelled: a TTL too long for chrono counts as zero.
- **Encoding.** bincode is the pair `Encode`/`Decode` over a `Blob`. A `Blob` is either the encoding of an item, or bytes that do not decode as an item of that payload type.
- **The moka cache** is a map from key strings to blobs.
- **The backend** is a class. Its fields are the store and the statistics, and its methods state the whole new state.
- **The retry loop** is a method with a loop. It is proved equal to the recursive definition `RunFrom`. The request closure is a function from the call's index to its result.

## Model

| member | source | states |
|---|---|---|
| Numeric.SaturatingPow2 | src/rate_limit.rs:120 | `2_u64.saturating_pow(n)` is 2^n, clipped at `u64::MAX` |
| Numeric.SaturatingScale | src/rate_limit.rs:120 | `base.saturating_mul(2.saturating_pow(n))` equals base·2^n clipped at `u64::MAX`, for every base and n |
| Text.Split | src/cache.rs:256 | `split(',')` yields at least one piece, and no piece contains the separator |
| Text.JoinSplit | src/cache.rs:256 | Joining the pieces of a split with the separator gives back the original string |
| Text.SplitJoin | src/cache.rs:70-85 | Splitting the join of separator-free fields gives back exactly those fields |
| Text.SplitWithoutSeparator | src/cache.rs:256 | A string without the separator splits into itself alone |
| Text.SplitAfterPiece | src/cache.rs:256 | A separator-free piece followed by the separator splits off as the first piece |
| Text.TrimStart | src/cache.rs:257 | Removes exactly the leading run of Unicode whitespace |
| Text.TrimEnd | src/cache.rs:257 | Removes exactly the trailing run of Unicode whitespace |
| Text.TrimOfTrimmed | src/cache.rs:257 | `trim` leaves a string unchanged when it neither starts nor ends with whitespace |
| Text.TrimLeadingBlanks | src/cache.rs:257 | Trimming whitespace followed by such a string gives that string |
| Text.NatToString | src/cache.rs:73-82 | The decimal form of a number is a non-empty string of digits, with no leading zero except for 0 itself |
| Text.IntToString | src/cache.rs:73-82 | The decimal form of an `i32` is made of digits and a minus sign |
| Text.DigitsValueOfNatToString | src/cache.rs:73-82 | The digits printed for n have the value n |
| Text.NatToStringInjective | src/cache.rs:73-82 | Two numbers print the same exactly when they are equal |
| Text.IntToStringInjective | src/cache.rs:73-82 | Two signed numbers print the same exactly when they are equal |
| Text.ParseUnsigned | src/cache.rs:267 | `parse::<u64>`/`parse::<u32>` succeeds only on a non-empty string, with a value below the type's limit |
| Text.ParseU32AlsoU64 | src/rate_limit.rs:130-147 | A string that parses as a `u32` parses to the same value as a `u64` |
| Text.ParseNatToString | src/rate_limit.rs:130-147 | The decimal form of n parses back to n exactly when n fits the target type |
| Headers.ToStr | src/cache.rs:244 | `HeaderValue::to_str` succeeds exactly when every byte is visible ASCII (or a tab), and then keeps every byte as a character |
| Headers.ToStrOfBytes | src/rate_limit.rs:130 | A visible-ASCII string sent as a header value reads back as itself |
| Errors.ToRpcCode | src/error.rs:53-65 | -32700 exactly for `JsonError`; -32602 exactly for the invalid-id errors; -32603 exactly for the ESI, network, cache and internal errors; -32000 and -32001 for rate limit and authentication, the only server-range codes; every code is in the reserved range [-32768, -32000] |
| Errors.FromMessage | src/error.rs:36-46 | `From<String>` and `From<&str>` both give `InternalError` carrying the message, whose code is -32603 |
| Errors.FromMessageInjective | src/error.rs:36-46 | Two messages convert to the same error exactly when they are the same text |
| Errors.RpcCodeSeparatesClientFromServerFaults | src/error.rs:53-65 | A caller's fault (bad id, bad JSON) never shares a code with any other error |
| CacheKeys.Fields | src/cache.rs:70-85 | A key has three string fields, plus one for a type id and one for params |
| CacheKeys.ToStringIsJoinedFields | src/cache.rs:70-85 | In all four cases of `to_string`, the key string is `tradergrader:<type>:<region>[:<type_id>][:<params>]`, that is, its fields joined by ':' |
| CacheKeys.SplitRecoversFields | src/cache.rs:70-85 | For a well-formed key, splitting the string at ':' gives back its fields |
| CacheKeys.ToStringInjective | src/cache.rs:70-85 | Two well-formed keys have the same string exactly when they are the same key |
| CacheKeys.FactoryKeysAreWellFormed | src/cache.rs:30-67 | Keys built by the four factories are well formed |
| CacheKeys.FactoryKeysDoNotCollide | src/cache.rs:30-85 | Different factory-built keys (data type, region or type id) give different strings |
| CacheKeys.FactoriesBuildFactoryKeys | src/cache.rs:30-67 | `market_orders`, `market_history`, `market_summary` and `price_analysis` build keys of the categories "orders", "history", "summary" and "analysis", without params |
| CacheKeys.TypeIdAndParamsCollide | src/cache.rs:75-80 | Outside well-formed keys the string is not injective: type id 34 and params "34" give the same string |
| CacheKeys.OrdersKeyWithType | src/cache.rs:571-573 | `market_orders(10000002, Some(34))` prints as `tradergrader:orders:10000002:34` |
| CacheKeys.OrdersKeyWithoutType | src/cache.rs:575-576 | `market_orders(10000002, None)` prints as `tradergrader:orders:10000002` |
| CacheItems.RemainingTtl | src/cache.rs:117-126 | `remaining_ttl` is present exactly while the item is valid, and is then positive and reaches the expiry time |
| CacheItems.ValidityWindow | src/cache.rs:110-114 | For any TTL chrono's `Duration` can represent, an item is valid exactly while `now < cached_at + ttl`, and the remaining TTL is the time up to that instant |
| CacheItems.ZeroTtlNeverValid | src/cache.rs:101-114 | An item with TTL 0 is never valid |
| CacheItems.NewItemValidIffPositiveTtl | src/cache.rs:101-114 | A new item is valid at its creation exactly when its TTL is positive |
| CacheItems.ExpiryIsPermanent | src/cache.rs:110-114 | Once expired, an item stays expired |
| CacheItems.RemainingTtlCountsDown | src/cache.rs:117-126 | The remaining TTL shrinks by exactly the time that passes |
| CacheItems.OverlongTtlNeverValid | src/cache.rs:112 | A TTL beyond chrono's range falls back to zero, so the item is not valid even when created |
| CacheItems.Decode | src/cache.rs:161-177 | Decoding succeeds exactly on the encoding of an item |
| CacheItems.DecodeEncode | src/cache.rs:155-199 | Decoding what `set` encoded gives back the item |
| EsiHeaderParser.DirectiveTtl | src/cache.rs:260-271 | A directive that decides gives a TTL that fits a `u64` |
| EsiHeaderParser.ParseCacheControlString | src/cache.rs:254-276 | Every TTL it gives fits a `u64`; what it decides is stated by the lemmas below |
| EsiHeaderParser.ScanTakesFirstDecision | src/cache.rs:256-275 | The scan returns the decision of the first directive that decides, once trimmed, and 60 s when none does |
| EsiHeaderParser.ScanTwo | src/cache.rs:256-275 | The loop over two directives: the first decision, else the second, else 60 s |
| EsiHeaderParser.OneDirective | src/cache.rs:254-276 | A header of one directive gives that directive's decision, else 60 s |
| EsiHeaderParser.TwoDirectives | src/cache.rs:254-276 | `a,b` gives a's decision, else b's, else 60 s |
| EsiHeaderParser.TwoBare | src/cache.rs:254-276 | `a, b` as the tests write it: a's decision, else b's, else 60 s |
| EsiHeaderParser.BareDecision | src/cache.rs:257 | A directive without surrounding blanks decides the same with or without one leading blank |
| EsiHeaderParser.MaxAgeDirective | src/cache.rs:265-269 | `max-age=<digits>` decides exactly what the digits parse to as a `u64` |
| EsiHeaderParser.MaxAgeRoundTrip | src/cache.rs:254-276 | The header `max-age=N` gives N seconds, for every `u64` N |
| EsiHeaderParser.MaxAgeHeader | src/cache.rs:242-276 | A header map holding `Cache-Control: max-age=N` gives N seconds, for every `u64` N |
| EsiHeaderParser.OtherDirective | src/cache.rs:260-271 | A directive starting with neither 'n' nor 'm' (such as `public`) decides nothing |
| EsiHeaderParser.NoCacheBare | src/cache.rs:260-262 | `no-cache` and `no-store` decide 0 |
| EsiHeaderParser.PublicThenMaxAge | src/cache.rs:594-595 | `public, max-age=300` gives 300 s |
| EsiHeaderParser.MaxAgeThenPublic | src/cache.rs:597-598 | `max-age=600, public` gives 600 s |
| EsiHeaderParser.NoCacheAlone | src/cache.rs:603-604 | `no-cache` gives 0 s |
| EsiHeaderParser.PublicThenNoStore | src/cache.rs:606-607 | `public, no-store` gives 0 s |
| EsiHeaderParser.PublicAlone | src/cache.rs:612-613 | `public` gives the conservative 60 s |
| EsiHeaderParser.MaxAgeAlone | src/cache.rs:619-622 | `max-age=300` gives 300 s |
| EsiHeaderParser.ParseCacheControl | src/cache.rs:242-251 | A missing header, or one that is not visible ASCII, gives the 300 s fallback; the TTL always fits a `u64` |
| EsiHeaderParser.HeaderValueParsed | src/cache.rs:243-245 | A visible-ASCII header value is parsed as it stands |
| EsiHeaderParser.NoCacheHeader | src/cache.rs:242-251 | A header map holding `Cache-Control: no-cache` gives 0 s |
| EsiHeaderParser.DefaultTtlForMissingHeader | src/cache.rs:279-281 | The missing-header fallback lies within the 30 s to 6 h bounds |
| EsiHeaderParser.RecommendedTtl | src/cache.rs:285-293 | Every recommended TTL lies within the 30 s to 6 h bounds |
| EsiHeaderParser.RecommendedTtlTable | src/cache.rs:285-293 | orders 300 s, history 3600 s, summary 180 s, analysis 1800 s, and 300 s for every other data type |
| EsiHeaderParser.ApplyTtlBounds | src/cache.rs:317-333 | Below 30 s the result is 30 s. Above 6 h it is min(recommended, 6 h). Otherwise the header TTL is kept. The result never exceeds 6 h, or the header TTL raised to 30 s |
| EsiHeaderParser.ApplyTtlBoundsIdempotent | src/cache.rs:317-333 | Bounding twice gives the same as bounding once, when the recommendation is at least 30 s |
| EsiHeaderParser.ApplyTtlBoundsExamples | src/cache.rs:649-677 | (300,300)→300, (10,300)→30, (25000,300)→300, (10000,300)→10000 |
| EsiHeaderParser.CreateCacheItemFromResponse | src/cache.rs:296-314 | The item keeps the data and creation time. Its TTL is 0 exactly when the header says 0; otherwise it is the header TTL bounded against the data type's recommendation, within 30 s to 6 h |
| EsiHeaderParser.CreatedItemTtl | src/cache.rs:296-333 | By the header TTL: 0 stays 0, below 30 s becomes 30 s, 30 s to 6 h is kept, and beyond 6 h the data type's recommended TTL is used |
| EsiHeaderParser.CreatedItemValidity | src/cache.rs:296-314 | For its first 30 s, a built item is valid exactly when the header did not say `no-cache`/`no-store` |
| EsiHeaderParser.ItemFromMaxAgeResponse | src/cache.rs:680-693 | For `max-age=N` with N within the bounds, the item has TTL N and is valid when created |
| EsiHeaderParser.ItemFromNoCacheResponse | src/cache.rs:696-707 | A `no-cache` response gives an item with TTL 0 that is not valid |
| EsiHeaderParser.ItemFromHeaderlessResponse | src/cache.rs:242-314 | A response without `Cache-Control` gives the 300 s fallback TTL |
| EsiHeaderParser.ItemFromLongMaxAgeResponse | src/cache.rs:296-333 | A `max-age` beyond 6 h gives a history item 3600 s and an orders item 300 s |
| CacheBackends.DefaultStats | src/cache.rs:220-230 | `CacheStats::default()` has zero counters, ratio 0 and backend "unknown" |
| CacheBackends.HitRatio | src/cache.rs:474-478 | The ratio lies in [0, 1]. Times the number of lookups it equals the hits. It is 1 exactly when there was no miss, and 0 exactly when there was no hit |
| CacheBackends.GetFindsExactlyValidItems | src/cache.rs:155-183 | `get` returns an item exactly when the key holds the encoding of a still-valid item; a hit leaves the store unchanged |
| CacheBackends.MissRemovesOnlyTheKey | src/cache.rs:155-183 | After a miss the key is absent, and every other key keeps its entry |
| CacheBackends.MissIsStable | src/cache.rs:155-183 | After a miss, a later `get` misses again and changes nothing |
| CacheBackends.SetThenGet | src/cache.rs:155-199 | `set` then `get` returns the item exactly while it is valid; once it is not, the key is evicted |
| CacheBackends.SetOtherKeyIndependent | src/cache.rs:185-199 | Storing under one key does not change what `get` answers for another key |
| CacheBackends.HitPersistsWhileValid | src/cache.rs:155-183 | A hit stays the same hit for as long as the item stays valid |
| CacheBackends.HealthCheckKey | src/cache.rs:523-528 | The probe key is well formed and is not a factory key |
| CacheBackends.HealthCheckKeyIsolated | src/cache.rs:523-528 | The probe key's string differs from every factory-built key's string, so the check never touches cached market data |
| CacheBackends.InMemoryCacheBackend.constructor | src/cache.rs:436-455 | An empty store, zero statistics, "in-memory", and the given capacity and time to live |
| CacheBackends.InMemoryCacheBackend.Default | src/cache.rs:457-462 | 1000 entries and one hour |
| CacheBackends.InMemoryCacheBackend.UpdateStats | src/cache.rs:465-480 | One more hit or miss, the entry count refreshed, and the ratio kept equal to hits over lookups |
| CacheBackends.InMemoryCacheBackend.GetBytes | src/cache.rs:485-493 | Returns the stored bytes exactly when the key is present, counting a hit, or else a miss; the store is unchanged |
| CacheBackends.InMemoryCacheBackend.SetBytes | src/cache.rs:495-498 | Stores the bytes under the key, ignoring the TTL argument; the statistics are unchanged |
| CacheBackends.InMemoryCacheBackend.Remove | src/cache.rs:500-504 | Only the key's entry is dropped |
| CacheBackends.InMemoryCacheBackend.Clear | src/cache.rs:506-511 | The store is empty and the statistics are kept |
| CacheBackends.InMemoryCacheBackend.Stats | src/cache.rs:513-519 | The snapshot's ratio is that of its own counts |
| CacheBackends.InMemoryCacheBackend.Get | src/cache.rs:155-183 | Returns and leaves exactly what `TypedGet` describes. It counts a hit whenever bytes are present, even for an expired or corrupt entry |
| CacheBackends.InMemoryCacheBackend.Set | src/cache.rs:185-199 | Stores the item's encoding under the key's string |
| CacheBackends.InMemoryCacheBackend.HealthCheck | src/cache.rs:521-545 | Succeeds exactly when the probe is still valid when read back, and otherwise fails with "could not retrieve". Afterwards only the probe key is gone, one hit is counted, and the item count still includes the probe, as counted at the lookup |
| CacheBackends.SetGetRemoveScenario | src/cache.rs:711-741 | set, get, stats, remove, get, stats: the item, 1 hit with a positive ratio, then nothing and 1 hit / 1 miss |
| CacheBackends.ExpiredScenario | tests/cache_integration_test.rs:60-87 | An item that expired 30 s ago is not returned and is evicted, and the lookup counts as a hit |
| CacheBackends.ClearScenario | src/cache.rs:773-795 | After `clear`, neither of two stored keys is found |
| CacheBackends.HealthCheckScenario | src/cache.rs:765-770 | The health check of a fresh backend passes |
| CacheConfigs.Default | src/cache.rs:359-368 | The default configuration is enabled and in memory |
| CacheConfigs.Disabled | src/cache.rs:377-382 | Exactly the default with caching switched off |
| CacheConfigs.InMemoryConfig | src/cache.rs:385-392 | Enabled, in memory, with the given capacity and TTL |
| CacheConfigs.DefaultIsInMemory | src/cache.rs:359-392 | The default equals `in_memory(1000, 3600 s)`, and differs from `disabled()` |
| CacheConfigs.CreateBackend | src/cache.rs:406-425 | A backend exactly when enabled: fresh, empty, with the configured capacity and time to live |
| RateLimit.PresetsCompared | src/rate_limit.rs:29-60 | Conservative is half the ESI rate, and has more retries, a longer base delay and a longer cap than the default. Testing is above the ESI rate. Every preset has a usable quota |
| RateLimit.QuotaPerSecond | src/rate_limit.rs:71-77 | Fails exactly for a rate of 0, with the internal error "Rate limit must be greater than 0" (code -32603); otherwise the quota is the rate |
| RateLimit.EsiRateLimiter.New | src/rate_limit.rs:71-85 | Fails exactly when `requests_per_second == 0`; otherwise it gives a fresh limiter with that configuration |
| RateLimit.EsiRateLimiter.Default | src/rate_limit.rs:88-90 | Always succeeds, with the default configuration |
| RateLimit.EsiRateLimiter.Acquire | src/rate_limit.rs:93-96 | Grants one more permit |
| RateLimit.ShouldRetry | src/rate_limit.rs:104-116 | True exactly when attempt < max_retries and the status is 429, 502, 503 or 504; a retried status is never 2xx |
| RateLimit.ShouldRetryMonotone | src/rate_limit.rs:104-116 | Once an attempt is refused, every later attempt is refused |
| RateLimit.NoBudgetNoRetry | src/rate_limit.rs:105-107 | With `max_retries == 0` nothing is retried |
| RateLimit.ShouldRetryExamples | src/rate_limit.rs:249-263 | (429,0) and (503,1) retried; (200,0), (404,0) and (429,5) not |
| RateLimit.MaxDelayMs | src/rate_limit.rs:121 | The cap is max_delay_seconds·1000 when that fits a `u64`, else `u64::MAX` |
| RateLimit.BackoffDelayMs | src/rate_limit.rs:119-124 | The delay is exactly min(base·2^attempt, cap): the saturating steps never lose anything |
| RateLimit.BackoffMonotone | src/rate_limit.rs:119-124 | The delay never decreases from one attempt to a later one |
| RateLimit.BackoffBounds | src/rate_limit.rs:119-124 | The delay is at most the cap, and at least min(base, cap) |
| RateLimit.BackoffDoubles | src/rate_limit.rs:119-124 | Below the cap, each further attempt waits twice as long |
| RateLimit.BackoffExamples | src/rate_limit.rs:266-282 | With base 100 ms and cap 5 s: 100, 200, 400 ms, and never above 5 s |
| RateLimit.BackoffLargeAttempt | src/rate_limit.rs:316-331 | Attempt 100 with a 1 s base and a 5 s cap waits between 1 s and 5 s |
| RateLimit.BackoffDelayMsAsWritten | src/rate_limit.rs:119-124 | The backoff with the unchecked `max_delay_seconds * 1000` agrees with the corrected one whenever the product fits a `u64` |
| RateLimit.AsWrittenCapWraps | src/rate_limit.rs:121 | For max_delay_seconds = 18446744073709552, the unchecked cap wraps to 384 ms, so attempt 3 waits 384 ms where the corrected backoff gives 800 ms |
| RateLimit.AsWrittenCapVanishes | src/rate_limit.rs:119-124 | For max_delay_seconds = 2^61 the unchecked cap wraps to 0, so every as-written wait is 0 ms, while the corrected backoff waits at least the base delay |
| RateLimit.HeaderNumber | src/rate_limit.rs:128-147 | A header yields a number only when it is present, and the number is below the type's limit |
| RateLimit.ParseRateLimitHeaders | src/rate_limit.rs:127-150 | Each field is present only when its header is; no headers give the default info |
| RateLimit.ParseRateLimitFieldsIndependent | src/rate_limit.rs:127-150 | Each field depends only on its own header |
| RateLimit.HeaderNumberRoundTrip | src/rate_limit.rs:128-147 | A header holding the decimal form of n reads back as n exactly when n fits the type |
| RateLimit.ParseRateLimitRoundTrip | src/rate_limit.rs:285-299 | Headers holding decimal numbers give back those numbers; the remaining count only when it fits a `u32` |
| RateLimit.RetryDelayMs | src/rate_limit.rs:179-186 | A parsed `Retry-After` of N seconds gives a wait of N·1000 ms; without one, the wait is the backoff delay of the attempt, which never exceeds the cap |
| RateLimit.RetryAfterPreferred | src/rate_limit.rs:140-186 | A `Retry-After` header holding N sets the wait to N·1000 ms whatever the attempt; a number too large for a `u64` is ignored and the backoff applies |
| RateLimit.RunFrom | src/rate_limit.rs:158-197 | A run makes between 1 and max_retries − attempt + 1 calls, and retries one response fewer than it makes calls |
| RateLimit.RunStep | src/rate_limit.rs:174-196 | A retried call adds one call and one retried response, and the run continues at the next attempt |
| RateLimit.RunStop | src/rate_limit.rs:165-176 | A call that is not retried ends the run with its own result |
| RateLimit.RetriedAt | src/rate_limit.rs:160-197 | The j-th retried response is what call j yielded, and it was retried |
| RateLimit.RunEndsAtFirstUnretried | src/rate_limit.rs:160-197 | A run returns exactly what its last call yielded, and that call is not retried. Every earlier call was retried and is recorded as it was |
| RateLimit.WaitsSnoc | src/rate_limit.rs:182-196 | One more retried response adds its wait at the end |
| RateLimit.WaitsOfRun | src/rate_limit.rs:179-196 | The j-th wait is the `Retry-After` or backoff delay of call j's response at attempt j |
| RateLimit.WaitsWithoutRetryAfter | src/rate_limit.rs:182-186 | Without `Retry-After` headers, the waits are the backoff delays of consecutive attempts |
| RateLimit.RunWaitsDefined | src/rate_limit.rs:158-196 | The attempt counter stays within `u32` |
| RateLimit.ErrorPropagates | src/rate_limit.rs:165 | An error from the first call is returned at once, after one call |
| RateLimit.FirstSuccessReturned | src/rate_limit.rs:169-171 | A 2xx first response is returned at once, after one call |
| RateLimit.PersistentOutageExhaustsRetries | src/rate_limit.rs:160-197 | A server that always answers 503 is called max_retries + 1 times, and the last 503 is returned |
| RateLimit.RunSoFarStep | src/rate_limit.rs:178-196 | A retried call moves the loop on by one attempt, one response and one wait |
| RateLimit.RunSoFarStop | src/rate_limit.rs:165-176 | A call that is not retried ends the loop with the whole run's result, call count and waits |
| RateLimit.EsiRateLimiter.ExecuteWithRetry | src/rate_limit.rs:153-198 | Returns the outcome of `RunFrom` from attempt 0, and sleeps exactly the run's waits. It takes one permit per call |

## Left out

- Token-bucket pacing: `acquire` (src/rate_limit.rs:93-96) delegates to the `governor` crate's timing. It is modelled as counting one permit per call, with no waiting.
- `sleep` and `eprintln!` in `execute_with_retry`: the loop reports the waits it would sleep, in milliseconds, instead of sleeping. The log line is not modelled.
- moka's capacity eviction, its backend-level `time_to_live` (src/cache.rs:437-442), and the eventual consistency of `entry_count`: these are library behaviour not visible in the source. The model keeps every stored entry, and the item count is the store's size at the last lookup.
- `CacheBackends.InMemoryCacheBackend.HealthCheck`: the "retrieved data doesn't match" branch is kept in the code, but the model has no state in which it can be taken. Encoding is exact and nothing runs concurrently.
- The `f64` hit ratio is an exact `real`; `f64` rounding is not modelled.
- The `Mutex` poisoning fallbacks (src/cache.rs:466, 514-518) are not modelled.
- The `hits`/`misses` counters are unbounded: a `u64` overflow after 2^64 lookups is not modelled.
- Errors the in-memory backend never returns are not modelled: every backend method in the model succeeds. bincode's serialization failure in `set` is not modelled, because encoding is total.
- bincode's actual byte format is not modelled: the encoding is abstract. A backend holds items of one payload type, so bytes stored for a different type always count as undecodable. bincode, which does not tag types, may still decode them as an item of the other type.
- CacheItems.ValidityWindow: `cached_at + Duration` panics once the sum leaves chrono's `DateTime` range, about 8.2·10^12 s after the epoch. A TTL that large but within `Duration`'s range would make `is_valid` panic. The model instead treats the item as valid until that far-off expiry. Every TTL the program itself creates is at most 6 h.
- CacheItems.RemainingTtl: `remaining_ttl` reads the clock twice, once in `is_valid` and once for the subtraction. An item that expires between the two reads gives `None` (or a zero duration) although it was found valid. The model takes both readings at the same instant `now`, so a valid item always has a positive remaining time.
- Sub-second precision of `Duration` and of the chrono clock is not modelled: all durations are whole seconds, and a backoff is whole milliseconds.
- The Redis backend (the `redis-cache` feature paths, src/cache.rs:355-356, 395-403, 416-422) is not implemented in the source and is left out.
- `EsiRateLimiter::config` is a plain accessor. The model exposes the `config` field directly.
- The request closure is a function from the call's index to its result: it cannot observe the limiter's state.
- `src/market.rs`, `src/mcp.rs`, `src/server.rs`, `src/lib.rs`, `src/main.rs` and `src/types.rs` are not part of this model. They hold HTTP and JSON-RPC I/O, `f64` statistics and plain records.

## Findings

| source | as written | input that shows it | evidently intended | confidence | as-written member | corrected member |
|---|---|---|---|---|---|---|
| src/rate_limit.rs:121 | `max_delay_seconds * 1000` is an unchecked `u64` product: it wraps in a release build (and panics in a debug one) | `max_delay_seconds = 18446744073709552`: the cap wraps to 384 ms, so attempts 2 and 3 both wait 384 ms, and attempt 3 waits 384 ms instead of 800 ms. With `max_delay_seconds = 2^61` the cap wraps to 0, so every retry is sent at once with no backoff | a saturating product, as the neighbouring `saturating_mul`/`saturating_pow` show, so that a huge maximum delay leaves the exponential backoff uncapped instead of collapsing it | not executed | RateLimit.BackoffDelayMsAsWritten | RateLimit.BackoffDelayMs |
