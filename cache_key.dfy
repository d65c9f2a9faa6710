/**
 * `CacheKey`: the logical identity of a cached request, and the string under
 * which the backend stores it.
 */
module CacheKeys {
  import opened Wrappers
  import opened Numeric
  import opened Text

  /** What was requested: a data category, a region, an optional item type, optional extra parameters. */
  datatype CacheKey = CacheKey(dataType: string, regionId: i32, typeId: Option<i32>, params: Option<string>)

  const KEY_PREFIX: string := "tradergrader"
  const SEPARATOR: char := ':'

  /** The data categories the factories produce. */
  const FACTORY_CATEGORIES: set<string> := {"orders", "history", "summary", "analysis"}

  /** `CacheKey::market_orders`. */
  function MarketOrders(regionId: i32, typeId: Option<i32>): CacheKey
  {
    CacheKey("orders", regionId, typeId, None)
  }

  /** `CacheKey::market_history`. */
  function MarketHistory(regionId: i32, typeId: i32): CacheKey
  {
    CacheKey("history", regionId, Some(typeId), None)
  }

  /** `CacheKey::market_summary`. */
  function MarketSummary(regionId: i32, typeId: i32): CacheKey
  {
    CacheKey("summary", regionId, Some(typeId), None)
  }

  /** `CacheKey::price_analysis`. */
  function PriceAnalysis(regionId: i32, typeId: i32): CacheKey
  {
    CacheKey("analysis", regionId, Some(typeId), None)
  }

  /** `CacheKey::to_string`: the four `format!` cases, one per presence of type id and params. */
  function ToString(k: CacheKey): string
  {
    match (k.typeId, k.params)
    case (Some(t), Some(p)) =>
      KEY_PREFIX + ":" + k.dataType + ":" + IntToString(k.regionId) + ":" + IntToString(t) + ":" + p
    case (Some(t), None) =>
      KEY_PREFIX + ":" + k.dataType + ":" + IntToString(k.regionId) + ":" + IntToString(t)
    case (None, Some(p)) =>
      KEY_PREFIX + ":" + k.dataType + ":" + IntToString(k.regionId) + ":" + p
    case (None, None) =>
      KEY_PREFIX + ":" + k.dataType + ":" + IntToString(k.regionId)
  }

  /** The fields of a key in string form, in key order, absent ones left out. */
  function Fields(k: CacheKey): (fs: seq<string>)
    ensures |fs| == 3 + (if k.typeId.Some? then 1 else 0) + (if k.params.Some? then 1 else 0)
  {
    [KEY_PREFIX, k.dataType, IntToString(k.regionId)]
    + (if k.typeId.Some? then [IntToString(k.typeId.value)] else [])
    + (if k.params.Some? then [k.params.value] else [])
  }

  /**
   * Keys whose string form can be read back: the data type and params hold no
   * ':' and params appear only together with a type id.
   */
  predicate WellFormed(k: CacheKey)
  {
    SEPARATOR !in k.dataType
    && (k.params.Some? ==> k.typeId.Some? && SEPARATOR !in k.params.value)
  }

  /** The keys the four factories build. */
  predicate IsFactoryKey(k: CacheKey)
  {
    k.dataType in FACTORY_CATEGORIES && k.params.None?
  }

  lemma JoinOfThree(a: string, b: string, c: string)
    ensures Join([a, b, c], SEPARATOR) == a + ":" + b + ":" + c
  {
    JoinCons(a, [b, c], SEPARATOR);
    JoinCons(b, [c], SEPARATOR);
    assert [a] + [b, c] == [a, b, c] && [b] + [c] == [b, c];
  }

  lemma JoinOfFour(a: string, b: string, c: string, d: string)
    ensures Join([a, b, c, d], SEPARATOR) == a + ":" + b + ":" + c + ":" + d
  {
    JoinCons(a, [b, c, d], SEPARATOR);
    JoinOfThree(b, c, d);
    assert [a] + [b, c, d] == [a, b, c, d];
  }

  lemma JoinOfFive(a: string, b: string, c: string, d: string, e: string)
    ensures Join([a, b, c, d, e], SEPARATOR) == a + ":" + b + ":" + c + ":" + d + ":" + e
  {
    JoinCons(a, [b, c, d, e], SEPARATOR);
    JoinOfFour(b, c, d, e);
    assert [a] + [b, c, d, e] == [a, b, c, d, e];
  }

  /** The string form is `tradergrader:<type>:<region>[:<type_id>][:<params>]`. */
  lemma ToStringIsJoinedFields(k: CacheKey)
    ensures ToString(k) == Join(Fields(k), SEPARATOR)
  {
    var r := IntToString(k.regionId);
    match (k.typeId, k.params)
    case (Some(t), Some(p)) =>
      assert Fields(k) == [KEY_PREFIX, k.dataType, r, IntToString(t), p];
      JoinOfFive(KEY_PREFIX, k.dataType, r, IntToString(t), p);
    case (Some(t), None) =>
      assert Fields(k) == [KEY_PREFIX, k.dataType, r, IntToString(t)];
      JoinOfFour(KEY_PREFIX, k.dataType, r, IntToString(t));
    case (None, Some(p)) =>
      assert Fields(k) == [KEY_PREFIX, k.dataType, r, p];
      JoinOfFour(KEY_PREFIX, k.dataType, r, p);
    case (None, None) =>
      assert Fields(k) == [KEY_PREFIX, k.dataType, r];
      JoinOfThree(KEY_PREFIX, k.dataType, r);
  }

  /** Splitting the string form of a well-formed key on ':' recovers its fields. */
  lemma SplitRecoversFields(k: CacheKey)
    requires WellFormed(k)
    ensures Split(ToString(k), SEPARATOR) == Fields(k)
  {
    ToStringIsJoinedFields(k);
    var fs := Fields(k);
    forall i | 0 <= i < |fs| ensures SEPARATOR !in fs[i] {
      assert fs[i] == KEY_PREFIX || fs[i] == k.dataType || fs[i] == IntToString(k.regionId)
        || (k.typeId.Some? && fs[i] == IntToString(k.typeId.value))
        || (k.params.Some? && fs[i] == k.params.value);
    }
    SplitJoin(fs, SEPARATOR);
  }

  /** Well-formed keys have the same string form exactly when they are the same key. */
  lemma ToStringInjective(k1: CacheKey, k2: CacheKey)
    requires WellFormed(k1) && WellFormed(k2)
    ensures ToString(k1) == ToString(k2) <==> k1 == k2
  {
    if ToString(k1) == ToString(k2) {
      SplitRecoversFields(k1);
      SplitRecoversFields(k2);
      var f1, f2 := Fields(k1), Fields(k2);
      assert f1 == f2;
      assert k1.dataType == f1[1] == f2[1] == k2.dataType;
      assert IntToString(k1.regionId) == f1[2] == f2[2] == IntToString(k2.regionId);
      IntToStringInjective(k1.regionId, k2.regionId);
      assert k1.typeId.Some? == k2.typeId.Some? && k1.params.Some? == k2.params.Some?;
      if k1.typeId.Some? {
        assert IntToString(k1.typeId.value) == f1[3] == f2[3] == IntToString(k2.typeId.value);
        IntToStringInjective(k1.typeId.value, k2.typeId.value);
      }
      if k1.params.Some? {
        assert k1.params.value == f1[4] == f2[4] == k2.params.value;
      }
      assert k1.regionId == k2.regionId && k1.typeId == k2.typeId && k1.params == k2.params;
    }
  }

  /** Every key built by a factory can be read back. */
  lemma FactoryKeysAreWellFormed(k: CacheKey)
    requires IsFactoryKey(k)
    ensures WellFormed(k)
  {
    assert SEPARATOR !in "orders" && SEPARATOR !in "history";
    assert SEPARATOR !in "summary" && SEPARATOR !in "analysis";
  }

  /** Factory keys that differ in category, region or type id are stored under different strings. */
  lemma FactoryKeysDoNotCollide(k1: CacheKey, k2: CacheKey)
    requires IsFactoryKey(k1) && IsFactoryKey(k2) && k1 != k2
    ensures ToString(k1) != ToString(k2)
  {
    FactoryKeysAreWellFormed(k1);
    FactoryKeysAreWellFormed(k2);
    ToStringInjective(k1, k2);
  }

  /** Each factory produces a factory key of its own category. */
  lemma FactoriesBuildFactoryKeys(regionId: i32, maybeType: Option<i32>, typeId: i32)
    ensures IsFactoryKey(MarketOrders(regionId, maybeType)) && MarketOrders(regionId, maybeType).dataType == "orders"
    ensures IsFactoryKey(MarketHistory(regionId, typeId)) && MarketHistory(regionId, typeId).dataType == "history"
    ensures IsFactoryKey(MarketSummary(regionId, typeId)) && MarketSummary(regionId, typeId).dataType == "summary"
    ensures IsFactoryKey(PriceAnalysis(regionId, typeId)) && PriceAnalysis(regionId, typeId).dataType == "analysis"
  {
  }

  /**
   * Outside the well-formed keys the string form is not injective: a type id of
   * 34 and a params string "34" give the same string.
   */
  lemma TypeIdAndParamsCollide()
    ensures ToString(CacheKey("orders", 10000002, Some(34), None))
         == ToString(CacheKey("orders", 10000002, None, Some("34")))
  {
  }

  /** The region id of the source's tests, The Forge, in decimal. */
  lemma RegionDecimal()
    ensures IntToString(10000002) == "10000002"
  {
    assert NatToString(10) == "10";
    assert NatToString(100) == "100";
    assert NatToString(1000) == "1000";
    assert NatToString(10000) == "10000";
    assert NatToString(100000) == "100000";
    assert NatToString(1000000) == "1000000";
  }

  /** The prefix of every orders key. */
  lemma OrdersPrefix()
    ensures KEY_PREFIX + ":" + "orders" + ":" == "tradergrader:orders:"
  {
  }

  /** The expected string for an orders key with a type id. */
  lemma OrdersKeyWithType(k: CacheKey)
    requires k == MarketOrders(10000002, Some(34))
    ensures ToString(k) == "tradergrader:orders:10000002:34"
  {
    RegionDecimal();
    assert IntToString(34) == "34";
    OrdersPrefix();
    assert ToString(k) == "tradergrader:orders:" + "10000002" + ":" + "34";
  }

  /** The expected string for an orders key without a type id. */
  lemma OrdersKeyWithoutType(k: CacheKey)
    requires k == MarketOrders(10000002, None)
    ensures ToString(k) == "tradergrader:orders:10000002"
  {
    RegionDecimal();
    OrdersPrefix();
    assert ToString(k) == "tradergrader:orders:" + "10000002";
  }
}
