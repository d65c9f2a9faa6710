/**
 * `EsiHeaderParser`: turns a response's Cache-Control header and the category of
 * the data into the TTL of the cache item. It reads three response directives
 * of section 5.2.2 of RFC 9111: `max-age` (5.2.2.1), `no-cache` (5.2.2.4) and
 * `no-store` (5.2.2.5). All durations are in seconds.
 */
module EsiHeaderParser {
  import opened Wrappers
  import opened Numeric
  import opened Text
  import opened Headers
  import opened CacheItems

  /** TTL for a header that says not to cache. */
  const NO_CACHE_TTL: nat := 0
  /** TTL for a header that has neither `max-age` nor `no-cache`/`no-store`. */
  const CONSERVATIVE_TTL: nat := 60
  /** `default_ttl_for_missing_header`. */
  const MISSING_HEADER_TTL: nat := 300
  /** Bounds `apply_ttl_bounds` keeps a header TTL within. */
  const MIN_TTL: nat := 30
  const MAX_TTL: nat := 3600 * 6

  const MAX_AGE_PREFIX: string := "max-age="

  /**
   * What one trimmed directive decides: 0 for `no-cache`/`no-store`, N for
   * `max-age=N` when N parses as a `u64`, and nothing for any other directive.
   */
  function DirectiveTtl(directive: string): (r: Option<nat>)
    ensures r.Some? ==> r.value < U64_LIMIT
  {
    if directive == "no-cache" || directive == "no-store" then Some(NO_CACHE_TTL)
    else if |directive| >= |MAX_AGE_PREFIX| && directive[..|MAX_AGE_PREFIX|] == MAX_AGE_PREFIX
    then ParseUnsigned(directive[|MAX_AGE_PREFIX|..], U64_LIMIT)
    else None
  }

  /** What one piece between commas decides, once trimmed. */
  function Decision(piece: string): (r: Option<nat>)
    ensures r.Some? ==> r.value < U64_LIMIT
  {
    DirectiveTtl(Trim(piece))
  }

  /** The `for directive in split(',')` loop: the first directive that decides, else 60 s. */
  function ScanDirectives(directives: seq<string>): (ttl: nat)
    ensures ttl < U64_LIMIT
  {
    if |directives| == 0 then CONSERVATIVE_TTL
    else if Decision(directives[0]).Some? then Decision(directives[0]).value
    else ScanDirectives(directives[1..])
  }

  /** `parse_cache_control_string`. */
  function ParseCacheControlString(cacheControl: string): (ttl: nat)
    ensures ttl < U64_LIMIT
  {
    ScanDirectives(Split(cacheControl, ','))
  }

  /** `parse_cache_control`: a header that is missing or not visible ASCII gives the fallback. */
  function ParseCacheControl(headers: HeaderMap): (ttl: nat)
    ensures ttl < U64_LIMIT
    ensures GetStr(headers, CACHE_CONTROL).None? ==> ttl == MISSING_HEADER_TTL
  {
    match GetStr(headers, CACHE_CONTROL)
    case Some(value) => ParseCacheControlString(value)
    case None => DefaultTtlForMissingHeader()
  }

  /**
   * The scan returns the decision of the first deciding directive (after
   * trimming), and 60 s when no directive decides.
   */
  lemma {:induction false} ScanTakesFirstDecision(directives: seq<string>, i: nat)
    requires i <= |directives|
    requires forall j :: 0 <= j < i ==> Decision(directives[j]).None?
    ensures i == |directives| ==> ScanDirectives(directives) == CONSERVATIVE_TTL
    ensures i < |directives| && Decision(directives[i]).Some? ==>
              ScanDirectives(directives) == Decision(directives[i]).value
    decreases i
  {
    if i > 0 {
      var rest := directives[1..];
      assert Decision(directives[0]).None?;
      assert ScanDirectives(directives) == ScanDirectives(rest);
      forall j | 0 <= j < i - 1 ensures Decision(rest[j]).None? {
        assert rest[j] == directives[j + 1];
      }
      ScanTakesFirstDecision(rest, i - 1);
      if i < |directives| {
        assert rest[i - 1] == directives[i];
      }
    }
  }

  /** `default_ttl_for_missing_header`. */
  function DefaultTtlForMissingHeader(): (ttl: nat)
    ensures MIN_TTL <= ttl <= MAX_TTL
  {
    MISSING_HEADER_TTL
  }

  /** `recommended_ttl_for_data_type`: the per-category table, 5 minutes for unknown categories. */
  function RecommendedTtl(dataType: string): (ttl: nat)
    ensures MIN_TTL <= ttl <= MAX_TTL
  {
    match dataType
    case "orders" => 300
    case "history" => 3600
    case "summary" => 180
    case "analysis" => 1800
    case _ => 300
  }

  /**
   * `apply_ttl_bounds`: a header TTL under 30 s becomes 30 s; one over 6 h is
   * replaced by the recommendation, itself capped at 6 h; anything in between is
   * kept.
   */
  function ApplyTtlBounds(headerTtl: nat, recommendedTtl: nat): (ttl: nat)
    ensures ttl <= MAX_TTL
    ensures ttl <= Max(headerTtl, MIN_TTL)
    ensures MIN_TTL <= headerTtl <= MAX_TTL ==> ttl == headerTtl
    ensures headerTtl < MIN_TTL ==> ttl == MIN_TTL
    ensures headerTtl > MAX_TTL ==> ttl == Min(recommendedTtl, MAX_TTL)
    ensures recommendedTtl >= MIN_TTL ==> MIN_TTL <= ttl
  {
    if headerTtl < MIN_TTL then MIN_TTL
    else if headerTtl > MAX_TTL then Min(recommendedTtl, MAX_TTL)
    else headerTtl
  }

  function Max(a: int, b: int): int
  {
    if a >= b then a else b
  }

  /** Bounding twice changes nothing, whenever the recommendation is itself above the floor. */
  lemma ApplyTtlBoundsIdempotent(headerTtl: nat, recommendedTtl: nat)
    requires recommendedTtl >= MIN_TTL
    ensures ApplyTtlBounds(ApplyTtlBounds(headerTtl, recommendedTtl), recommendedTtl)
         == ApplyTtlBounds(headerTtl, recommendedTtl)
  {
  }

  /**
   * `create_cache_item_from_response`: a header TTL of zero is kept verbatim
   * (an item never valid); any other header TTL is bounded against the
   * category's recommendation.
   */
  function CreateCacheItemFromResponse<T>(data: T, headers: HeaderMap, dataType: string, now: int)
    : (item: CacheItem<T>)
    ensures item.data == data && item.cachedAt == now
    ensures item.ttl == 0 <==> ParseCacheControl(headers) == 0
    ensures item.ttl != 0 ==> MIN_TTL <= item.ttl <= MAX_TTL
    ensures item.ttl != 0 ==> item.ttl == ApplyTtlBounds(ParseCacheControl(headers), RecommendedTtl(dataType))
  {
    var headerTtl := ParseCacheControl(headers);
    if headerTtl == 0 then NewItem(data, 0, now)
    else NewItem(data, ApplyTtlBounds(headerTtl, RecommendedTtl(dataType)), now)
  }

  /**
   * The TTL of an item built from a response, by the header's TTL: 0 stays 0,
   * a short one is raised to 30 s, one within 30 s to 6 h is kept, and one
   * beyond 6 h is replaced by the category's recommendation.
   */
  lemma CreatedItemTtl<T>(data: T, headers: HeaderMap, dataType: string, now: int)
    ensures var headerTtl := ParseCacheControl(headers);
            var ttl := CreateCacheItemFromResponse(data, headers, dataType, now).ttl;
            && (headerTtl == 0 ==> ttl == 0)
            && (0 < headerTtl < MIN_TTL ==> ttl == MIN_TTL)
            && (MIN_TTL <= headerTtl <= MAX_TTL ==> ttl == headerTtl)
            && (headerTtl > MAX_TTL ==> ttl == RecommendedTtl(dataType))
  {
  }

  /**
   * An item built from a response is valid at creation exactly when the header
   * did not say `no-cache`/`no-store`, and then stays valid for at least 30 s.
   */
  lemma CreatedItemValidity<T>(data: T, headers: HeaderMap, dataType: string, now: int, later: int)
    requires now <= later < now + MIN_TTL
    ensures var item := CreateCacheItemFromResponse(data, headers, dataType, now);
            IsValid(item, later) <==> ParseCacheControl(headers) != 0
  {
  }

  // ---------------------------------------------------------------------------
  // Headers of one or two directives, and the values the source's tests use
  // ---------------------------------------------------------------------------

  /** A directive as written between commas: no comma, no blank at either end. */
  predicate Bare(d: string)
  {
    d != [] && ',' !in d && !IsWhitespace(d[0]) && !IsWhitespace(d[|d| - 1])
  }

  /** A bare directive is decided as it stands, also after one blank. */
  lemma BareDecision(d: string)
    requires Bare(d)
    ensures Decision(d) == DirectiveTtl(d) && Decision(" " + d) == DirectiveTtl(d)
  {
    TrimOfTrimmed(d);
    TrimLeadingBlanks(" ", d);
  }

  /** A header of two directives splits into those two. */
  lemma SplitTwo(first: string, second: string)
    requires ',' !in first && ',' !in second
    ensures Split(first + "," + second, ',') == [first, second]
  {
    SplitAfterPiece(first, ',', second);
    SplitWithoutSeparator(second, ',');
    assert first + "," + second == first + [','] + second;
  }

  /** One step of the scan: the head decides, or the scan goes on with the rest. */
  lemma ScanStep(directives: seq<string>)
    requires |directives| > 0
    ensures ScanDirectives(directives)
         == if Decision(directives[0]).Some? then Decision(directives[0]).value
            else ScanDirectives(directives[1..])
  {
  }

  /** The scan over two directives. */
  lemma ScanTwo(first: string, second: string)
    ensures ScanDirectives([first, second])
         == if Decision(first).Some? then Decision(first).value
            else if Decision(second).Some? then Decision(second).value
            else CONSERVATIVE_TTL
  {
    var ds := [first, second];
    assert ds[0] == first && ds[1..] == [second];
    ScanStep(ds);
    var rest := [second];
    assert rest[0] == second && rest[1..] == [];
    ScanStep(rest);
  }

  /** A header of one directive: what it decides, else the conservative 60 s. */
  lemma OneDirective(d: string)
    requires ',' !in d
    ensures ParseCacheControlString(d)
         == if Decision(d).Some? then Decision(d).value else CONSERVATIVE_TTL
  {
    SplitWithoutSeparator(d, ',');
    var ds := [d];
    assert ds[0] == d && ds[1..] == [];
  }

  /**
   * A header of two directives: the first decides when it can, then the
   * second, else the conservative 60 s.
   */
  lemma TwoDirectives(a: string, b: string)
    requires ',' !in a && ',' !in b
    ensures ParseCacheControlString(a + "," + b)
         == if Decision(a).Some? then Decision(a).value
            else if Decision(b).Some? then Decision(b).value
            else CONSERVATIVE_TTL
  {
    SplitTwo(a, b);
    ScanTwo(a, b);
  }

  /** A bare directive after a comma and a blank holds no comma. */
  lemma BlankBare(d: string)
    requires Bare(d)
    ensures ',' !in " " + d
  {
    assert !IsWhitespace(',');
  }

  /**
   * A header `a, b` of two bare directives, as the tests write them: the first
   * decides when it can, then the second, else the conservative 60 s.
   */
  lemma TwoBare(a: string, b: string)
    requires Bare(a) && Bare(b)
    ensures ParseCacheControlString(a + ", " + b)
         == if Decision(a).Some? then Decision(a).value
            else if Decision(" " + b).Some? then Decision(" " + b).value
            else CONSERVATIVE_TTL
  {
    BlankBare(b);
    assert a + ", " + b == a + "," + (" " + b);
    TwoDirectives(a, " " + b);
  }

  /** A `max-age=` directive decides the TTL it carries when that parses as a `u64`. */
  lemma MaxAgeDirective(digits: string)
    ensures DirectiveTtl(MAX_AGE_PREFIX + digits) == ParseUnsigned(digits, U64_LIMIT)
  {
    var d := MAX_AGE_PREFIX + digits;
    assert d[0] == 'm';
    assert d != "no-cache" && d != "no-store";
    assert d[..|MAX_AGE_PREFIX|] == MAX_AGE_PREFIX && d[|MAX_AGE_PREFIX|..] == digits;
  }

  /** `max-age=N` holds no comma and no blank at either end. */
  lemma MaxAgeIsBare(n: nat)
    ensures Bare(MAX_AGE_PREFIX + NatToString(n))
  {
    var digits := NatToString(n);
    var d := MAX_AGE_PREFIX + digits;
    forall i | 0 <= i < |d| ensures d[i] != ',' {
      if i >= |MAX_AGE_PREFIX| {
        assert d[i] == digits[i - |MAX_AGE_PREFIX|];
      }
    }
    assert d[0] == 'm' && d[|d| - 1] == digits[|digits| - 1];
  }

  /** `max-age=N` for any `u64` N decides N. */
  lemma MaxAgeDecides(n: nat)
    requires n < U64_LIMIT
    ensures DirectiveTtl(MAX_AGE_PREFIX + NatToString(n)) == Some(n)
  {
    MaxAgeDirective(NatToString(n));
    ParseNatToString(n, U64_LIMIT);
  }

  /** `max-age=N`, for any `u64` N, is a bare directive deciding N. */
  lemma MaxAgeBare(n: nat)
    requires n < U64_LIMIT
    ensures Bare(MAX_AGE_PREFIX + NatToString(n))
    ensures DirectiveTtl(MAX_AGE_PREFIX + NatToString(n)) == Some(n)
  {
    MaxAgeIsBare(n);
    MaxAgeDecides(n);
  }

  /** `max-age=N` for any `u64` N gives N seconds. */
  lemma MaxAgeRoundTrip(n: nat)
    requires n < U64_LIMIT
    ensures ParseCacheControlString(MAX_AGE_PREFIX + NatToString(n)) == n
  {
    MaxAgeBare(n);
    BareDecision(MAX_AGE_PREFIX + NatToString(n));
    OneDirective(MAX_AGE_PREFIX + NatToString(n));
  }

  /** A directive that starts with neither 'n' nor 'm' decides nothing. */
  lemma OtherDirective(d: string)
    requires d != [] && d[0] != 'n' && d[0] != 'm'
    ensures DirectiveTtl(d).None?
  {
    if |d| >= |MAX_AGE_PREFIX| {
      assert d[..|MAX_AGE_PREFIX|][0] == d[0];
    }
  }

  /** `public` is a bare directive that decides nothing. */
  lemma PublicBare(d: string)
    requires d == "public"
    ensures Bare(d) && DirectiveTtl(d).None?
  {
    assert d[0] == 'p' && d[|d| - 1] == 'c';
    OtherDirective(d);
  }

  /** `no-cache` and `no-store` are bare directives that decide 0. */
  lemma NoCacheBare(d: string)
    requires d == "no-cache" || d == "no-store"
    ensures Bare(d) && DirectiveTtl(d) == Some(NO_CACHE_TTL)
  {
    assert d[0] == 'n' && d[|d| - 1] == 'e';
  }

  // The Cache-Control values of the source's tests and the TTLs they expect.

  /** `public, max-age=300` gives 300 s. */
  lemma PublicThenMaxAge(a: string, b: string, n: nat)
    requires a == "public" && n == 300 && b == MAX_AGE_PREFIX + NatToString(n)
    ensures ParseCacheControlString(a + ", " + b) == 300
  {
    PublicBare(a);
    BareDecision(a);
    MaxAgeBare(n);
    BareDecision(b);
    TwoBare(a, b);
  }

  /** `max-age=600, public` gives 600 s. */
  lemma MaxAgeThenPublic(a: string, b: string, n: nat)
    requires n == 600 && a == MAX_AGE_PREFIX + NatToString(n) && b == "public"
    ensures ParseCacheControlString(a + ", " + b) == 600
  {
    MaxAgeBare(n);
    BareDecision(a);
    PublicBare(b);
    TwoBare(a, b);
  }

  /** `no-cache` gives 0 s. */
  lemma NoCacheAlone(header: string)
    requires header == "no-cache"
    ensures ParseCacheControlString(header) == 0
  {
    NoCacheBare(header);
    BareDecision(header);
    OneDirective(header);
  }

  /** `public, no-store` gives 0 s. */
  lemma PublicThenNoStore(a: string, b: string)
    requires a == "public" && b == "no-store"
    ensures ParseCacheControlString(a + ", " + b) == 0
  {
    PublicBare(a);
    BareDecision(a);
    NoCacheBare(b);
    BareDecision(b);
    TwoBare(a, b);
  }

  /** `public` alone gives the conservative 60 s. */
  lemma PublicAlone(header: string)
    requires header == "public"
    ensures ParseCacheControlString(header) == CONSERVATIVE_TTL
  {
    PublicBare(header);
    BareDecision(header);
    OneDirective(header);
  }

  /** `max-age=300` gives 300 s. */
  lemma MaxAgeAlone(header: string, n: nat)
    requires n == 300 && header == MAX_AGE_PREFIX + NatToString(n)
    ensures ParseCacheControlString(header) == 300
  {
    MaxAgeRoundTrip(n);
  }

  /** A header map with only the given Cache-Control value. */
  function CacheControlHeader(value: string): HeaderMap
    requires forall i :: 0 <= i < |value| ==> value[i] as int < 0x100
  {
    map[CACHE_CONTROL := Bytes(value)]
  }

  /** A visible-ASCII Cache-Control value is parsed as it stands. */
  lemma HeaderValueParsed(value: string)
    requires forall i :: 0 <= i < |value| ==> value[i] == '\t' || ' ' <= value[i] <= '~'
    ensures ParseCacheControl(CacheControlHeader(value)) == ParseCacheControlString(value)
  {
    ToStrOfBytes(value);
  }

  /** `max-age=N` is visible ASCII. */
  lemma MaxAgeVisible(n: nat)
    ensures var d := MAX_AGE_PREFIX + NatToString(n);
            forall i :: 0 <= i < |d| ==> d[i] == '\t' || ' ' <= d[i] <= '~'
  {
    var digits := NatToString(n);
    var d := MAX_AGE_PREFIX + digits;
    forall i | 0 <= i < |d| ensures d[i] == '\t' || ' ' <= d[i] <= '~' {
      if i >= |MAX_AGE_PREFIX| {
        assert d[i] == digits[i - |MAX_AGE_PREFIX|];
      }
    }
  }

  /** A header map whose only header is `Cache-Control: max-age=N`. */
  function MaxAgeHeaderMap(n: nat): HeaderMap
  {
    MaxAgeVisible(n);
    CacheControlHeader(MAX_AGE_PREFIX + NatToString(n))
  }

  /** Through a header map: `max-age=N`, for any `u64` N, gives N seconds. */
  lemma MaxAgeHeader(n: nat)
    requires n < U64_LIMIT
    ensures ParseCacheControl(MaxAgeHeaderMap(n)) == n
  {
    MaxAgeVisible(n);
    HeaderValueParsed(MAX_AGE_PREFIX + NatToString(n));
    MaxAgeRoundTrip(n);
  }

  /** Through a header map: a present `no-cache`. */
  lemma NoCacheHeaderParsed(value: string)
    requires value == "no-cache"
    ensures ParseCacheControl(CacheControlHeader(value)) == ParseCacheControlString(value)
  {
    HeaderValueParsed(value);
  }

  lemma NoCacheHeader(value: string)
    requires value == "no-cache"
    ensures ParseCacheControl(CacheControlHeader(value)) == 0
  {
    NoCacheHeaderParsed(value);
    NoCacheAlone(value);
  }

  /**
   * A response whose `max-age` is within the bounds gives an item with exactly
   * that TTL, valid when created (the source's test uses 300 s for orders).
   */
  lemma ItemFromMaxAgeResponse<T>(data: T, n: nat, dataType: string, now: int)
    requires MIN_TTL <= n <= MAX_TTL
    ensures CreateCacheItemFromResponse(data, MaxAgeHeaderMap(n), dataType, now).ttl == n
    ensures IsValid(CreateCacheItemFromResponse(data, MaxAgeHeaderMap(n), dataType, now), now)
  {
    MaxAgeHeader(n);
  }

  /** The source's test item built from a `no-cache` response has TTL 0 and is never valid. */
  lemma ItemFromNoCacheResponse(headers: HeaderMap, now: int)
    requires headers == CacheControlHeader("no-cache")
    ensures CreateCacheItemFromResponse("test_data", headers, "orders", now).ttl == 0
    ensures !IsValid(CreateCacheItemFromResponse("test_data", headers, "orders", now), now)
  {
    NoCacheHeader("no-cache");
  }

  /** Without a Cache-Control header the item gets the 5-minute fallback. */
  lemma ItemFromHeaderlessResponse(now: int)
    ensures CreateCacheItemFromResponse("test_data", map[], "orders", now).ttl == 300
  {
  }

  /** The recommended TTLs per category. */
  lemma RecommendedTtlTable()
    ensures RecommendedTtl("orders") == 300 && RecommendedTtl("history") == 3600
    ensures RecommendedTtl("summary") == 180 && RecommendedTtl("analysis") == 1800
    ensures RecommendedTtl("unknown") == 300
    ensures forall d :: d !in {"orders", "history", "summary", "analysis"} ==> RecommendedTtl(d) == 300
  {
  }

  /**
   * A `max-age` beyond 6 h gives way to the category's recommendation: one
   * hour for price history, five minutes for orders.
   */
  lemma ItemFromLongMaxAgeResponse<T>(data: T, n: nat, now: int)
    requires MAX_TTL < n < U64_LIMIT
    ensures CreateCacheItemFromResponse(data, MaxAgeHeaderMap(n), "history", now).ttl == 3600
    ensures CreateCacheItemFromResponse(data, MaxAgeHeaderMap(n), "orders", now).ttl == 300
  {
    MaxAgeHeader(n);
  }

  /** The bounds on the source's test values. */
  lemma ApplyTtlBoundsExamples()
    ensures ApplyTtlBounds(300, 300) == 300
    ensures ApplyTtlBounds(10, 300) == 30
    ensures ApplyTtlBounds(25000, 300) == 300
    ensures ApplyTtlBounds(10000, 300) == 10000
  {
  }
}
