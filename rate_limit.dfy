/**
 * `EsiRateLimiter`: the client-side discipline for the EVE Online ESI API. A
 * token-bucket quota is taken before every request, transient failures (429,
 * 502, 503, 504) are retried up to a configured number of times, and between
 * attempts the client waits either the server's `Retry-After` or an
 * exponential backoff capped at a maximum delay. Durations are in
 * milliseconds unless a name says seconds.
 */
module RateLimit {
  import opened Wrappers
  import opened Numeric
  import opened Text
  import opened Headers
  import opened Errors

  // ---------------------------------------------------------------------------
  // Configuration
  // ---------------------------------------------------------------------------

  /** `RateLimitConfig`. */
  datatype RateLimitConfig = RateLimitConfig(
    requestsPerSecond: u32,
    maxRetries: u32,
    baseDelayMs: u64,
    maxDelaySeconds: u64)

  /** ESI's published limit. */
  const ESI_REQUESTS_PER_SECOND: u32 := 100

  /** `RateLimitConfig::default`: the ESI limit, 3 retries, 100 ms doubling up to 30 s. */
  function DefaultConfig(): RateLimitConfig
  {
    RateLimitConfig(ESI_REQUESTS_PER_SECOND, 3, 100, 30)
  }

  /** `RateLimitConfig::conservative`: half the ESI limit, 5 retries, 200 ms doubling up to 60 s. */
  function ConservativeConfig(): RateLimitConfig
  {
    RateLimitConfig(50, 5, 200, 60)
  }

  /** `RateLimitConfig::testing`: a high limit, one retry, 10 ms doubling up to 1 s. */
  function TestingConfig(): RateLimitConfig
  {
    RateLimitConfig(1000, 1, 10, 1)
  }

  /**
   * The conservative preset stays at half the ESI limit and is more patient
   * than the default in every other respect; every preset has a usable quota.
   */
  lemma PresetsCompared()
    ensures ConservativeConfig().requestsPerSecond * 2 == ESI_REQUESTS_PER_SECOND
    ensures DefaultConfig().requestsPerSecond == ESI_REQUESTS_PER_SECOND
    ensures ConservativeConfig().maxRetries > DefaultConfig().maxRetries
    ensures ConservativeConfig().baseDelayMs > DefaultConfig().baseDelayMs
    ensures ConservativeConfig().maxDelaySeconds > DefaultConfig().maxDelaySeconds
    ensures TestingConfig().requestsPerSecond > ESI_REQUESTS_PER_SECOND
    ensures QuotaPerSecond(DefaultConfig()).Success?
    ensures QuotaPerSecond(ConservativeConfig()).Success?
    ensures QuotaPerSecond(TestingConfig()).Success?
  {
  }

  const ZERO_RATE_MESSAGE: string := "Rate limit must be greater than 0"

  /**
   * The quota `EsiRateLimiter::new` builds: `NonZeroU32::new(requests_per_second)`,
   * which fails with an internal error for a rate of zero.
   */
  function QuotaPerSecond(config: RateLimitConfig): (r: Result<nat, TraderGraderError>)
    ensures r.Success? <==> config.requestsPerSecond > 0
    ensures r.Success? ==> r.value == config.requestsPerSecond
    ensures r.Failure? ==> r.error == InternalError(ZERO_RATE_MESSAGE)
    ensures r.Failure? ==> ToRpcCode(r.error) == INTERNAL_ERROR
  {
    if config.requestsPerSecond == 0 then Failure(FromMessage(ZERO_RATE_MESSAGE))
    else Success(config.requestsPerSecond)
  }

  // ---------------------------------------------------------------------------
  // Which responses are retried
  // ---------------------------------------------------------------------------

  /** `reqwest::StatusCode`: a three-digit code. */
  type StatusCode = x: int | 100 <= x < 1000 witness 200

  const OK: StatusCode := 200
  const NOT_FOUND: StatusCode := 404
  const TOO_MANY_REQUESTS: StatusCode := 429
  const BAD_GATEWAY: StatusCode := 502
  const SERVICE_UNAVAILABLE: StatusCode := 503
  const GATEWAY_TIMEOUT: StatusCode := 504

  /** The statuses a request is retried on: throttling and the transient gateway failures. */
  const RETRYABLE: set<int> := {TOO_MANY_REQUESTS, BAD_GATEWAY, SERVICE_UNAVAILABLE, GATEWAY_TIMEOUT}

  /** `StatusCode::is_success`. */
  predicate IsSuccess(status: StatusCode)
  {
    200 <= status < 300
  }

  /** `should_retry`: only below the retry budget, and only on a retryable status. */
  function ShouldRetry(config: RateLimitConfig, status: StatusCode, attempt: u32): (r: bool)
    ensures r <==> attempt < config.maxRetries && status in RETRYABLE
    ensures r ==> !IsSuccess(status) && 400 <= status < 600
  {
    if attempt >= config.maxRetries then false
    else
      match status
      case 429 => true
      case 503 => true
      case 502 => true
      case 504 => true
      case _ => false
  }

  /** Once the retry budget refuses an attempt it refuses every later one. */
  lemma ShouldRetryMonotone(config: RateLimitConfig, status: StatusCode, attempt: u32, later: u32)
    requires attempt <= later
    ensures ShouldRetry(config, status, later) ==> ShouldRetry(config, status, attempt)
  {
  }

  /** With a budget of zero nothing is retried. */
  lemma NoBudgetNoRetry(config: RateLimitConfig, status: StatusCode, attempt: u32)
    requires config.maxRetries == 0
    ensures !ShouldRetry(config, status, attempt)
  {
  }

  /** The decisions the source's tests expect from the default configuration. */
  lemma ShouldRetryExamples()
    ensures ShouldRetry(DefaultConfig(), TOO_MANY_REQUESTS, 0)
    ensures ShouldRetry(DefaultConfig(), SERVICE_UNAVAILABLE, 1)
    ensures !ShouldRetry(DefaultConfig(), OK, 0)
    ensures !ShouldRetry(DefaultConfig(), NOT_FOUND, 0)
    ensures !ShouldRetry(DefaultConfig(), TOO_MANY_REQUESTS, 5)
  {
  }

  // ---------------------------------------------------------------------------
  // Exponential backoff
  // ---------------------------------------------------------------------------

  /**
   * The cap on the backoff, in milliseconds, as the evidently intended
   * `max_delay_seconds.saturating_mul(1000)`.
   */
  function MaxDelayMs(config: RateLimitConfig): (ms: u64)
    ensures config.maxDelaySeconds * 1000 <= U64_MAX ==> ms == config.maxDelaySeconds * 1000
    ensures config.maxDelaySeconds * 1000 > U64_MAX ==> ms == U64_MAX
  {
    SaturatingMul(config.maxDelaySeconds, 1000)
  }

  /**
   * `calculate_backoff_delay`: `base_delay_ms.saturating_mul(2.saturating_pow(attempt))`,
   * capped. The saturation never shows: the result is the exact exponential,
   * capped at the maximum delay.
   */
  function BackoffDelayMs(config: RateLimitConfig, attempt: u32): (ms: u64)
    ensures ms == Min(config.baseDelayMs * Pow2(attempt), MaxDelayMs(config))
  {
    var delay := SaturatingMul(config.baseDelayMs, SaturatingPow2(attempt));
    SaturatingScale(config.baseDelayMs, attempt);
    Min(delay, MaxDelayMs(config))
  }

  /** The delay never shrinks from one attempt to a later one. */
  lemma BackoffMonotone(config: RateLimitConfig, attempt: u32, later: u32)
    requires attempt <= later
    ensures BackoffDelayMs(config, attempt) <= BackoffDelayMs(config, later)
  {
    Pow2Monotone(attempt, later);
    MulMonotone(config.baseDelayMs, Pow2(attempt), Pow2(later));
  }

  /**
   * The delay is at most the cap and at least the base delay (or the cap, when
   * the cap is below the base).
   */
  lemma BackoffBounds(config: RateLimitConfig, attempt: u32)
    ensures BackoffDelayMs(config, attempt) <= MaxDelayMs(config)
    ensures Min(config.baseDelayMs, MaxDelayMs(config)) <= BackoffDelayMs(config, attempt)
  {
    MulAtLeast(config.baseDelayMs, Pow2(attempt));
  }

  /** Below the cap, each further attempt waits twice as long. */
  lemma BackoffDoubles(config: RateLimitConfig, attempt: u32)
    requires attempt + 1 < U32_LIMIT
    requires config.baseDelayMs * Pow2(attempt + 1) <= MaxDelayMs(config)
    ensures BackoffDelayMs(config, attempt + 1) == 2 * BackoffDelayMs(config, attempt)
  {
    assert config.baseDelayMs * Pow2(attempt + 1) == 2 * (config.baseDelayMs * Pow2(attempt));
  }

  /** A 100 ms base and a 5 s cap. */
  function TestBackoffConfig(): RateLimitConfig
  {
    RateLimitConfig(ESI_REQUESTS_PER_SECOND, 3, 100, 5)
  }

  /** The source's test: 100, 200, 400 ms, and never more than 5 s. */
  lemma BackoffExamples(attempt: u32)
    ensures BackoffDelayMs(TestBackoffConfig(), 0) == 100
    ensures BackoffDelayMs(TestBackoffConfig(), 1) == 200
    ensures BackoffDelayMs(TestBackoffConfig(), 2) == 400
    ensures BackoffDelayMs(TestBackoffConfig(), attempt) <= 5000
  {
    BackoffBounds(TestBackoffConfig(), attempt);
  }

  /** The source's overflow test: with a 1 s base and a 5 s cap, attempt 100 waits between 1 s and 5 s. */
  lemma BackoffLargeAttempt()
    ensures 1000 <= BackoffDelayMs(RateLimitConfig(ESI_REQUESTS_PER_SECOND, 3, 1000, 5), 100) <= 5000
  {
    BackoffBounds(RateLimitConfig(ESI_REQUESTS_PER_SECOND, 3, 1000, 5), 100);
  }

  /**
   * The backoff as the source writes it: `max_delay_seconds * 1000` is a plain
   * `u64` product, which wraps in a release build (and panics in a debug one).
   */
  function BackoffDelayMsAsWritten(config: RateLimitConfig, attempt: u32): (ms: u64)
    ensures config.maxDelaySeconds * 1000 <= U64_MAX ==> ms == BackoffDelayMs(config, attempt)
  {
    var delay := SaturatingMul(config.baseDelayMs, SaturatingPow2(attempt));
    var cap := WrappingMul(config.maxDelaySeconds, 1000);
    var r := Min(delay, cap);
    assert config.maxDelaySeconds * 1000 <= U64_MAX ==> r == BackoffDelayMs(config, attempt) by {
      if config.maxDelaySeconds * 1000 <= U64_MAX {
        assert cap == MaxDelayMs(config);
      }
    }
    r
  }

  /** A maximum delay just above `u64::MAX / 1000` seconds. */
  function HugeCapConfig(): RateLimitConfig
  {
    RateLimitConfig(ESI_REQUESTS_PER_SECOND, 3, 100, 18_446_744_073_709_552)
  }

  /**
   * With that maximum delay the written cap wraps to 384 ms, so the fourth
   * attempt waits 384 ms instead of 800 ms: every wait is held at 384 ms
   * instead of the configured cap of more than 584 million years.
   */
  lemma AsWrittenCapWraps()
    ensures WrappingMul(HugeCapConfig().maxDelaySeconds, 1000) == 384
    ensures BackoffDelayMsAsWritten(HugeCapConfig(), 3) == 384
    ensures BackoffDelayMs(HugeCapConfig(), 3) == 800
  {
    assert Pow2(3) == 8;
  }

  /** A maximum delay of 2^61 seconds, for which the written cap wraps to exactly 0. */
  function ZeroCapConfig(): RateLimitConfig
  {
    RateLimitConfig(ESI_REQUESTS_PER_SECOND, 3, 100, 2_305_843_009_213_693_952)
  }

  /**
   * With a maximum delay of 2^61 seconds the written cap is 0 ms, so no retry
   * waits at all, while the saturating cap keeps every wait at the base delay
   * or more.
   */
  lemma AsWrittenCapVanishes(attempt: u32)
    ensures WrappingMul(ZeroCapConfig().maxDelaySeconds, 1000) == 0
    ensures BackoffDelayMsAsWritten(ZeroCapConfig(), attempt) == 0
    ensures BackoffDelayMs(ZeroCapConfig(), attempt) >= ZeroCapConfig().baseDelayMs
  {
    BackoffBounds(ZeroCapConfig(), attempt);
  }

  // ---------------------------------------------------------------------------
  // ESI rate-limit headers
  // ---------------------------------------------------------------------------

  /** `EsiRateLimitInfo`: the three optional readings, durations in whole seconds. */
  datatype EsiRateLimitInfo = EsiRateLimitInfo(
    remaining: Option<u32>,
    resetTimeSecs: Option<u64>,
    retryAfterSecs: Option<u64>)

  /** `EsiRateLimitInfo::default`: nothing known. */
  function DefaultInfo(): EsiRateLimitInfo
  {
    EsiRateLimitInfo(None, None, None)
  }

  /**
   * `headers.get(name).and_then(to_str).and_then(parse)`: the header as an
   * unsigned number below `limit`, or nothing when it is missing, not visible
   * ASCII, not a number, or too large.
   */
  function HeaderNumber(headers: HeaderMap, name: string, limit: nat): (r: Option<u64>)
    requires limit <= U64_LIMIT
    ensures r.Some? ==> name in headers && r.value < limit
    ensures name !in headers ==> r.None?
  {
    match GetStr(headers, name)
    case None => None
    case Some(text) =>
      match ParseUnsigned(text, limit)
      case None => None
      case Some(n) => Some(n)
  }

  /** `parse_rate_limit_headers`: each field read from its own header. */
  function ParseRateLimitHeaders(headers: HeaderMap): (info: EsiRateLimitInfo)
    ensures info.remaining.Some? ==> ESI_ERROR_LIMIT_REMAIN in headers
    ensures info.resetTimeSecs.Some? ==> ESI_ERROR_LIMIT_RESET in headers
    ensures info.retryAfterSecs.Some? ==> RETRY_AFTER in headers
    ensures headers == map[] ==> info == DefaultInfo()
  {
    var remaining := HeaderNumber(headers, ESI_ERROR_LIMIT_REMAIN, U32_LIMIT);
    EsiRateLimitInfo(
      if remaining.Some? then Some(remaining.value as u32) else None,
      HeaderNumber(headers, ESI_ERROR_LIMIT_RESET, U64_LIMIT),
      HeaderNumber(headers, RETRY_AFTER, U64_LIMIT))
  }

  /** Each field depends on its own header only. */
  lemma ParseRateLimitFieldsIndependent(h1: HeaderMap, h2: HeaderMap)
    ensures (ESI_ERROR_LIMIT_REMAIN in h1 <==> ESI_ERROR_LIMIT_REMAIN in h2)
            && (ESI_ERROR_LIMIT_REMAIN in h1 ==> h1[ESI_ERROR_LIMIT_REMAIN] == h2[ESI_ERROR_LIMIT_REMAIN])
            ==> ParseRateLimitHeaders(h1).remaining == ParseRateLimitHeaders(h2).remaining
    ensures (ESI_ERROR_LIMIT_RESET in h1 <==> ESI_ERROR_LIMIT_RESET in h2)
            && (ESI_ERROR_LIMIT_RESET in h1 ==> h1[ESI_ERROR_LIMIT_RESET] == h2[ESI_ERROR_LIMIT_RESET])
            ==> ParseRateLimitHeaders(h1).resetTimeSecs == ParseRateLimitHeaders(h2).resetTimeSecs
    ensures (RETRY_AFTER in h1 <==> RETRY_AFTER in h2)
            && (RETRY_AFTER in h1 ==> h1[RETRY_AFTER] == h2[RETRY_AFTER])
            ==> ParseRateLimitHeaders(h1).retryAfterSecs == ParseRateLimitHeaders(h2).retryAfterSecs
  {
  }

  /** The decimal digits of a number are visible ASCII. */
  lemma DigitsVisible(n: nat)
    ensures forall i :: 0 <= i < |NatToString(n)| ==> NatToString(n)[i] == '\t' || ' ' <= NatToString(n)[i] <= '~'
  {
    var s := NatToString(n);
    forall i | 0 <= i < |s| ensures s[i] == '\t' || ' ' <= s[i] <= '~' {
      assert IsDigit(s[i]);
    }
  }

  /** The header value a server sends for the number n. */
  function NumberValue(n: nat): seq<byte>
  {
    DigitsVisible(n);
    Bytes(NatToString(n))
  }

  /** A header holding the decimal form of n reads back as n when n is below the limit. */
  lemma HeaderNumberRoundTrip(headers: HeaderMap, name: string, n: nat, limit: nat)
    requires limit <= U64_LIMIT
    requires name in headers && headers[name] == NumberValue(n)
    ensures HeaderNumber(headers, name, limit) == if n < limit then Some(n) else None
  {
    DigitsVisible(n);
    ToStrOfBytes(NatToString(n));
    ParseNatToString(n, limit);
  }

  /**
   * The source's test, for any values: three headers holding decimal numbers
   * give back those numbers, the remaining count only when it fits a `u32`.
   */
  lemma ParseRateLimitRoundTrip(remain: nat, reset: nat, retryAfter: nat)
    requires reset < U64_LIMIT && retryAfter < U64_LIMIT
    ensures var headers := map[ESI_ERROR_LIMIT_REMAIN := NumberValue(remain),
                               ESI_ERROR_LIMIT_RESET := NumberValue(reset),
                               RETRY_AFTER := NumberValue(retryAfter)];
            ParseRateLimitHeaders(headers)
            == EsiRateLimitInfo(if remain < U32_LIMIT then Some(remain) else None, Some(reset), Some(retryAfter))
  {
    var headers := map[ESI_ERROR_LIMIT_REMAIN := NumberValue(remain),
                       ESI_ERROR_LIMIT_RESET := NumberValue(reset),
                       RETRY_AFTER := NumberValue(retryAfter)];
    assert headers[ESI_ERROR_LIMIT_REMAIN] == NumberValue(remain);
    assert headers[ESI_ERROR_LIMIT_RESET] == NumberValue(reset);
    assert headers[RETRY_AFTER] == NumberValue(retryAfter);
    HeaderNumberRoundTrip(headers, ESI_ERROR_LIMIT_REMAIN, remain, U32_LIMIT);
    HeaderNumberRoundTrip(headers, ESI_ERROR_LIMIT_RESET, reset, U64_LIMIT);
    HeaderNumberRoundTrip(headers, RETRY_AFTER, retryAfter, U64_LIMIT);
  }

  // ---------------------------------------------------------------------------
  // Retrying a request
  // ---------------------------------------------------------------------------

  /** What the request closure yields on success: a status and the response headers. */
  datatype Response = Response(status: StatusCode, headers: HeaderMap)

  /**
   * The request closure, seen as what its n-th call (counting from 0) yields:
   * a response, or an error that `?` passes straight to the caller.
   */
  type Request = nat -> Result<Response, TraderGraderError>

  /** A call the loop answers by sleeping and calling again. */
  predicate Retried(config: RateLimitConfig, outcome: Result<Response, TraderGraderError>, attempt: nat)
  {
    outcome.Success? && !IsSuccess(outcome.value.status)
    && attempt < U32_LIMIT && ShouldRetry(config, outcome.value.status, attempt)
  }

  /** The wait before the next attempt: the server's `Retry-After`, else the backoff. */
  function RetryDelayMs(config: RateLimitConfig, response: Response, attempt: u32): (ms: nat)
    ensures ParseRateLimitHeaders(response.headers).retryAfterSecs.Some? ==>
              ms == ParseRateLimitHeaders(response.headers).retryAfterSecs.value * 1000
    ensures ParseRateLimitHeaders(response.headers).retryAfterSecs.None? ==> ms == BackoffDelayMs(config, attempt)
    ensures ParseRateLimitHeaders(response.headers).retryAfterSecs.None? ==> ms <= MaxDelayMs(config)
  {
    BackoffBounds(config, attempt);
    match ParseRateLimitHeaders(response.headers).retryAfterSecs
    case Some(secs) => secs * 1000
    case None => BackoffDelayMs(config, attempt)
  }

  /**
   * A server's `Retry-After: N` sets the wait to N seconds whatever the
   * attempt; a number too large for a `u64` is ignored and the backoff applies.
   */
  lemma RetryAfterPreferred(config: RateLimitConfig, response: Response, n: nat, attempt: u32)
    requires RETRY_AFTER in response.headers && response.headers[RETRY_AFTER] == NumberValue(n)
    ensures RetryDelayMs(config, response, attempt)
         == if n < U64_LIMIT then n * 1000 else BackoffDelayMs(config, attempt)
  {
    HeaderNumberRoundTrip(response.headers, RETRY_AFTER, n, U64_LIMIT);
  }

  /**
   * What a run of the retry loop amounts to: its result, the number of calls it
   * made, and the responses it answered by waiting and calling again.
   */
  datatype RetryRun = RetryRun(outcome: Result<Response, TraderGraderError>, calls: nat, retried: seq<Response>)

  /** The retry loop from a given attempt on, as a recursive definition. */
  function RunFrom(config: RateLimitConfig, request: Request, attempt: nat): (run: RetryRun)
    requires attempt <= config.maxRetries
    ensures 1 <= run.calls <= config.maxRetries - attempt + 1
    ensures |run.retried| == run.calls - 1
    decreases config.maxRetries - attempt
  {
    var outcome := request(attempt);
    if Retried(config, outcome, attempt) then
      var rest := RunFrom(config, request, attempt + 1);
      RetryRun(rest.outcome, rest.calls + 1, [outcome.value] + rest.retried)
    else
      RetryRun(outcome, 1, [])
  }

  /**
   * The waits before each new attempt, for responses retried at attempts
   * `first`, `first + 1`, and so on.
   */
  function Waits(config: RateLimitConfig, retried: seq<Response>, first: nat): (ms: seq<nat>)
    requires first + |retried| <= U32_LIMIT
    ensures |ms| == |retried|
  {
    seq(|retried|, j requires 0 <= j < |retried| => RetryDelayMs(config, retried[j], first + j))
  }

  /** Retrying one more response adds its wait at the end. */
  lemma WaitsSnoc(config: RateLimitConfig, retried: seq<Response>, response: Response)
    requires |retried| + 1 <= U32_LIMIT
    ensures Waits(config, retried + [response], 0)
         == Waits(config, retried, 0) + [RetryDelayMs(config, response, |retried|)]
  {
  }

  /** A retried call adds one call and one retried response in front of the rest of the run. */
  lemma RunStep(config: RateLimitConfig, request: Request, attempt: nat)
    requires attempt <= config.maxRetries && Retried(config, request(attempt), attempt)
    ensures attempt + 1 <= config.maxRetries
    ensures var rest := RunFrom(config, request, attempt + 1);
            RunFrom(config, request, attempt)
            == RetryRun(rest.outcome, rest.calls + 1, [request(attempt).value] + rest.retried)
  {
  }

  /** A call that is not retried ends the run with its own result. */
  lemma RunStop(config: RateLimitConfig, request: Request, attempt: nat)
    requires attempt <= config.maxRetries && !Retried(config, request(attempt), attempt)
    ensures RunFrom(config, request, attempt) == RetryRun(request(attempt), 1, [])
  {
  }

  /** The `j`-th retried response of a run is what the `j`-th call yielded, and it was retried. */
  lemma {:induction false} RetriedAt(config: RateLimitConfig, request: Request, attempt: nat, j: nat)
    requires attempt <= config.maxRetries && j < |RunFrom(config, request, attempt).retried|
    ensures Retried(config, request(attempt + j), attempt + j)
    ensures RunFrom(config, request, attempt).retried[j] == request(attempt + j).value
    decreases j
  {
    if !Retried(config, request(attempt), attempt) {
      RunStop(config, request, attempt);
      assert false;
    }
    RunStep(config, request, attempt);
    if j > 0 {
      RetriedAt(config, request, attempt + 1, j - 1);
      assert attempt + j == (attempt + 1) + (j - 1);
    }
  }

  /**
   * A run ends at its first call that is not retried and returns exactly what
   * that call yielded (an error, a success, or a response not worth retrying);
   * every earlier call was retried, and its response is the one recorded.
   */
  lemma {:induction false} RunEndsAtFirstUnretried(config: RateLimitConfig, request: Request, attempt: nat)
    requires attempt <= config.maxRetries
    ensures var run := RunFrom(config, request, attempt);
            && run.outcome == request(attempt + run.calls - 1)
            && !Retried(config, run.outcome, attempt + run.calls - 1)
    ensures var retried := RunFrom(config, request, attempt).retried;
            forall j :: 0 <= j < |retried| ==>
              request(attempt + j) == Success(retried[j]) && Retried(config, Success(retried[j]), attempt + j)
    decreases config.maxRetries - attempt
  {
    if Retried(config, request(attempt), attempt) {
      RunStep(config, request, attempt);
      RunEndsAtFirstUnretried(config, request, attempt + 1);
    } else {
      RunStop(config, request, attempt);
    }
    forall j | 0 <= j < |RunFrom(config, request, attempt).retried| {
      RetriedAt(config, request, attempt, j);
    }
  }

  /** The `j`-th wait of a run is the delay for the response of call `j`. */
  lemma WaitsOfRun(config: RateLimitConfig, request: Request)
    ensures var retried := RunFrom(config, request, 0).retried;
            forall j :: 0 <= j < |retried| ==>
              request(j).Success? && Waits(config, retried, 0)[j] == RetryDelayMs(config, request(j).value, j)
  {
    RunEndsAtFirstUnretried(config, request, 0);
    var retried := RunFrom(config, request, 0).retried;
    forall j | 0 <= j < |retried|
      ensures request(j).Success? && Waits(config, retried, 0)[j] == RetryDelayMs(config, request(j).value, j)
    {
      assert request(0 + j) == Success(retried[j]);
    }
  }

  /** The waits of a whole run fit the `u32` attempt counter. */
  lemma RunWaitsDefined(config: RateLimitConfig, request: Request)
    ensures |RunFrom(config, request, 0).retried| <= config.maxRetries < U32_LIMIT
  {
  }

  /** An error from the first call is returned at once, without retrying. */
  lemma ErrorPropagates(config: RateLimitConfig, request: Request, e: TraderGraderError)
    requires request(0) == Failure(e)
    ensures RunFrom(config, request, 0) == RetryRun(Failure(e), 1, [])
  {
  }

  /** A success on the first call is returned at once. */
  lemma FirstSuccessReturned(config: RateLimitConfig, request: Request, response: Response)
    requires request(0) == Success(response) && IsSuccess(response.status)
    ensures RunFrom(config, request, 0) == RetryRun(Success(response), 1, [])
  {
  }

  /**
   * A server that keeps answering 503 without `Retry-After` is called once plus
   * once per retry, and the loop finally hands back the 503.
   */
  lemma {:induction false} PersistentOutageExhaustsRetries(config: RateLimitConfig, request: Request, attempt: nat)
    requires attempt <= config.maxRetries
    requires forall j :: request(j) == Success(Response(SERVICE_UNAVAILABLE, map[]))
    ensures RunFrom(config, request, attempt).calls == config.maxRetries - attempt + 1
    ensures RunFrom(config, request, attempt).outcome == Success(Response(SERVICE_UNAVAILABLE, map[]))
    decreases config.maxRetries - attempt
  {
    if attempt < config.maxRetries {
      assert Retried(config, request(attempt), attempt);
      RunStep(config, request, attempt);
      PersistentOutageExhaustsRetries(config, request, attempt + 1);
    } else {
      assert !ShouldRetry(config, SERVICE_UNAVAILABLE, attempt);
      RunStop(config, request, attempt);
    }
  }

  /** Without `Retry-After` the waits are the exponential backoff of each attempt. */
  lemma WaitsWithoutRetryAfter(config: RateLimitConfig, retried: seq<Response>, first: nat)
    requires first + |retried| <= U32_LIMIT
    requires forall j :: 0 <= j < |retried| ==> RETRY_AFTER !in retried[j].headers
    ensures forall j :: 0 <= j < |retried| ==> Waits(config, retried, first)[j] == BackoffDelayMs(config, first + j)
  {
  }

  /**
   * How far the retry loop has got: `attempt` calls were retried, with these
   * responses and waits, and the rest of the run starts at `attempt`.
   */
  predicate RunSoFar(config: RateLimitConfig, request: Request, attempt: nat, retried: seq<Response>, sleptMs: seq<nat>)
  {
    && attempt <= config.maxRetries && |retried| == attempt
    && var whole := RunFrom(config, request, 0);
       var rest := RunFrom(config, request, attempt);
       && whole.outcome == rest.outcome
       && whole.calls == attempt + rest.calls
       && whole.retried == retried + rest.retried
       && sleptMs == Waits(config, retried, 0)
  }

  /** One retried call moves the loop on by one attempt, one response and one wait. */
  lemma RunSoFarStep(config: RateLimitConfig, request: Request, attempt: nat, retried: seq<Response>, sleptMs: seq<nat>)
    requires RunSoFar(config, request, attempt, retried, sleptMs)
    requires Retried(config, request(attempt), attempt)
    ensures attempt < U32_LIMIT
    ensures RunSoFar(config, request, attempt + 1, retried + [request(attempt).value],
                     sleptMs + [RetryDelayMs(config, request(attempt).value, attempt)])
  {
    var response := request(attempt).value;
    var rest := RunFrom(config, request, attempt + 1);
    RunStep(config, request, attempt);
    assert retried + RunFrom(config, request, attempt).retried == (retried + [response]) + rest.retried;
    WaitsSnoc(config, retried, response);
  }

  /** A call that is not retried ends the loop with the whole run's result. */
  lemma RunSoFarStop(config: RateLimitConfig, request: Request, attempt: nat, retried: seq<Response>, sleptMs: seq<nat>)
    requires RunSoFar(config, request, attempt, retried, sleptMs)
    requires !Retried(config, request(attempt), attempt)
    ensures request(attempt) == RunFrom(config, request, 0).outcome
    ensures RunFrom(config, request, 0).calls == attempt + 1
    ensures |RunFrom(config, request, 0).retried| < U32_LIMIT
    ensures sleptMs == Waits(config, RunFrom(config, request, 0).retried, 0)
  {
    RunStop(config, request, attempt);
  }

  /**
   * The governor-backed limiter. The token bucket itself is not modelled; the
   * limiter counts the permits it has handed out.
   */
  class EsiRateLimiter {
    const config: RateLimitConfig
    var permitsGranted: nat

    /** The construction behind `new`, once the quota is known to be non-zero. */
    constructor (config: RateLimitConfig)
      requires QuotaPerSecond(config).Success?
      ensures this.config == config && permitsGranted == 0
    {
      this.config := config;
      permitsGranted := 0;
    }

    /** `EsiRateLimiter::new`: fails exactly when the rate is zero. */
    static method New(config: RateLimitConfig) returns (r: Result<EsiRateLimiter, TraderGraderError>)
      ensures r.Failure? <==> config.requestsPerSecond == 0
      ensures r.Failure? ==> r.error == InternalError(ZERO_RATE_MESSAGE)
      ensures r.Success? ==> fresh(r.value) && r.value.config == config && r.value.permitsGranted == 0
    {
      var quota := QuotaPerSecond(config);
      if quota.Failure? {
        return Failure(quota.error);
      }
      var limiter := new EsiRateLimiter(config);
      return Success(limiter);
    }

    /** `EsiRateLimiter::default`. */
    static method Default() returns (r: Result<EsiRateLimiter, TraderGraderError>)
      ensures r.Success? && fresh(r.value) && r.value.config == DefaultConfig()
    {
      r := New(DefaultConfig());
    }

    /** `acquire`: waits for one permit of the quota; it never fails. */
    method Acquire()
      modifies this
      ensures permitsGranted == old(permitsGranted) + 1
    {
      permitsGranted := permitsGranted + 1;
    }

    /**
     * `execute_with_retry`: one permit and one call per attempt; returns the
     * first result that is not retried, and reports the waits between calls.
     */
    method ExecuteWithRetry(request: Request) returns (r: Result<Response, TraderGraderError>, sleptMs: seq<nat>)
      modifies this
      ensures r == RunFrom(config, request, 0).outcome
      ensures |RunFrom(config, request, 0).retried| < U32_LIMIT
      ensures sleptMs == Waits(config, RunFrom(config, request, 0).retried, 0)
      ensures permitsGranted == old(permitsGranted) + RunFrom(config, request, 0).calls
    {
      var attempt: u32 := 0;
      sleptMs := [];
      ghost var retried: seq<Response> := [];
      while true
        invariant RunSoFar(config, request, attempt, retried, sleptMs)
        invariant permitsGranted == old(permitsGranted) + attempt
        decreases config.maxRetries - attempt
      {
        Acquire();
        var outcome := request(attempt);
        if outcome.Failure? {
          RunSoFarStop(config, request, attempt, retried, sleptMs);
          return Failure(outcome.error), sleptMs;
        }
        var response := outcome.value;
        if IsSuccess(response.status) {
          RunSoFarStop(config, request, attempt, retried, sleptMs);
          return Success(response), sleptMs;
        }
        if !ShouldRetry(config, response.status, attempt) {
          RunSoFarStop(config, request, attempt, retried, sleptMs);
          return Success(response), sleptMs;
        }
        RunSoFarStep(config, request, attempt, retried, sleptMs);
        var delay := RetryDelayMs(config, response, attempt);
        retried := retried + [response];
        sleptMs := sleptMs + [delay];
        attempt := attempt + 1;
      }
    }
  }
}
