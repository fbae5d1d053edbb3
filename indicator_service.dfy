/** The indicator service (internal/service/indicator_service.go): one
    request computes CCI, MACD and RSI over the newest-first typical price
    with the fixed periods of the original MQ5 indicator, and caches the
    result under a key built from the request. The exchange call is a
    parameter (its answer `fetched`); the Redis cache is a map that is
    present only when Redis is up. */
module IndicatorService {
  import opened Wrappers
  import opened Types
  import opened ServiceTypes
  import Decimal
  import Cci
  import Macd
  import Rsi

  const CciPeriods: seq<int> := [48, 72, 168]
  const RsiPeriods: seq<int> := [48, 72]

  /** `fmt.Sprintf("indicators:%s:%s:%d", symbol, interval, limit)`. */
  function CacheKey(symbol: string, interval: string, limit: int): string
  {
    "indicators:" + symbol + ":" + interval + ":" + Decimal.IntToString(limit)
  }

  /** Requests whose symbol and interval contain no ':' never share a
      cache entry. */
  lemma CacheKeyInjective(symbol1: string, interval1: string, limit1: int,
                          symbol2: string, interval2: string, limit2: int)
    requires Decimal.Avoids(symbol1, ':') && Decimal.Avoids(symbol2, ':')
    requires Decimal.Avoids(interval1, ':') && Decimal.Avoids(interval2, ':')
    requires CacheKey(symbol1, interval1, limit1) == CacheKey(symbol2, interval2, limit2)
    ensures symbol1 == symbol2 && interval1 == interval2 && limit1 == limit2
  {
    var t1 := interval1 + [':'] + Decimal.IntToString(limit1);
    var t2 := interval2 + [':'] + Decimal.IntToString(limit2);
    assert symbol1 + [':'] + t1 == symbol2 + [':'] + t2 by {
      CacheKeySplit(symbol1, interval1, limit1);
      CacheKeySplit(symbol2, interval2, limit2);
      StripPrefix("indicators:", symbol1 + [':'] + t1, symbol2 + [':'] + t2);
    }
    Decimal.SeparatedUnique(symbol1, t1, symbol2, t2, ':');
    Decimal.SeparatedUnique(interval1, Decimal.IntToString(limit1),
                            interval2, Decimal.IntToString(limit2), ':');
    Decimal.IntToStringInjective(limit1, limit2);
  }

  lemma CacheKeySplit(symbol: string, interval: string, limit: int)
    ensures CacheKey(symbol, interval, limit) ==
            "indicators:" + (symbol + [':'] + (interval + [':'] + Decimal.IntToString(limit)))
  {
  }

  lemma StripPrefix(p: string, a: string, b: string)
    requires p + a == p + b
    ensures a == b
  {
    assert a == (p + a)[|p|..];
    assert b == (p + b)[|p|..];
  }

  /** The map the `for i, period := range periods` loop builds: one write
      per period, in order, later writes winning. */
  function PeriodMapOf(periods: seq<int>, results: seq<Option<seq<real>>>): map<string, Option<seq<real>>>
    requires |periods| == |results|
  {
    if periods == [] then map[]
    else
      var n := |periods| - 1;
      PeriodMapOf(periods[..n], results[..n])[Key(periods[n]) := results[n]]
  }

  /** The keys of the map are exactly the keys of the periods. */
  lemma {:induction false} PeriodMapKeys(periods: seq<int>, results: seq<Option<seq<real>>>, p: int)
    requires |periods| == |results|
    ensures Key(p) in PeriodMapOf(periods, results) <==> p in periods
  {
    if periods != [] {
      var n := |periods| - 1;
      PeriodMapKeys(periods[..n], results[..n], p);
      assert periods == periods[..n] + [periods[n]];
      if Key(p) == Key(periods[n]) {
        Decimal.IntToStringInjective(p, periods[n]);
      }
    }
  }

  method PeriodMap(periods: seq<int>, results: seq<Option<seq<real>>>) returns (m: map<string, Option<seq<real>>>)
    requires |periods| == |results|
    ensures m == PeriodMapOf(periods, results)
  {
    m := map[];
    var i := 0;
    while i < |periods|
      invariant 0 <= i <= |periods|
      invariant m == PeriodMapOf(periods[..i], results[..i])
    {
      assert periods[..i + 1][..i] == periods[..i];
      assert results[..i + 1][..i] == results[..i];
      m := m[Key(periods[i]) := results[i]];
      i := i + 1;
    }
    assert periods[..i] == periods;
    assert results[..i] == results;
  }

  /** The result of a request the exchange answered with non-empty klines. */
  function ResultOf(symbol: string, interval: string, klines: seq<Kline>): IndicatorResult
  {
    var hlcc := HlccOfKlines(klines);
    IndicatorResult(
      symbol, interval,
      PeriodMapOf(CciPeriods, [Cci.CciOf(hlcc, 48), Cci.CciOf(hlcc, 72), Cci.CciOf(hlcc, 168)]),
      map["48_72" := ToValues(Macd.MacdOf(hlcc, 48, 72, 2)), "72_168" := ToValues(Macd.MacdOf(hlcc, 72, 168, 2))],
      PeriodMapOf(RsiPeriods, [Rsi.RsiOf(hlcc, 48), Rsi.RsiOf(hlcc, 72)]),
      Some(hlcc))
  }

  /** GetIndicators after a cache miss: the exchange's error, an error for
      an empty answer, or the computed result. */
  function ComputeOf(symbol: string, interval: string, fetched: Result<seq<Kline>>): (r: Result<IndicatorResult>)
    ensures r.Ok? <==> fetched.Ok? && fetched.value != []
  {
    match fetched
    case Err(e) => Err("fetching klines failed: " + e)
    case Ok(klines) =>
      if klines == [] then Err("empty klines") else Ok(ResultOf(symbol, interval, klines))
  }

  /** A computed result: CCI under "48", "72", "168", MACD under "48_72"
      and "72_168", RSI under "48", "72"; a CCI series and a MACD line
      exist exactly when there are at least as many klines as the (slow)
      period, an RSI series when there is one more (it needs a change per
      period), and the price is the newest-first typical price. */
  lemma ResultShape(symbol: string, interval: string, klines: seq<Kline>)
    requires klines != []
    ensures var r := ResultOf(symbol, interval, klines);
            var n := |klines|;
            r.symbol == symbol && r.interval == interval &&
            r.cci.Keys == {"48", "72", "168"} && r.rsi.Keys == {"48", "72"} &&
            r.macd.Keys == {"48_72", "72_168"} &&
            (r.cci["48"].Some? <==> n >= 48) && (r.cci["72"].Some? <==> n >= 72) &&
            (r.cci["168"].Some? <==> n >= 168) &&
            (r.rsi["48"].Some? <==> n > 48) && (r.rsi["72"].Some? <==> n > 72) &&
            (r.macd["48_72"].macdLine.Some? <==> n >= 72) &&
            (r.macd["72_168"].macdLine.Some? <==> n >= 168) &&
            r.price.Some? && |r.price.value| == n
  {
    var hlcc := HlccOfKlines(klines);
    CciMap(Cci.CciOf(hlcc, 48), Cci.CciOf(hlcc, 72), Cci.CciOf(hlcc, 168));
    RsiMap(Rsi.RsiOf(hlcc, 48), Rsi.RsiOf(hlcc, 72));
  }

  /** The CCI loop writes the three fixed keys. */
  lemma CciMap(c48: Option<seq<real>>, c72: Option<seq<real>>, c168: Option<seq<real>>)
    ensures PeriodMapOf(CciPeriods, [c48, c72, c168]) == map["48" := c48, "72" := c72, "168" := c168]
  {
    var cci := [c48, c72, c168];
    assert Key(48) == "48" && Key(72) == "72" && Key(168) == "168";
    assert CciPeriods[..2] == [48, 72] && CciPeriods[..2][..1] == [48] && [48][..0] == [];
    assert cci[..2] == [c48, c72] && cci[..2][..1] == [c48] && [c48][..0] == [];
    assert PeriodMapOf([48], [c48]) == map["48" := c48];
    assert PeriodMapOf([48, 72], [c48, c72]) == map["48" := c48, "72" := c72];
  }

  /** The RSI loop writes the two fixed keys. */
  lemma RsiMap(r48: Option<seq<real>>, r72: Option<seq<real>>)
    ensures PeriodMapOf(RsiPeriods, [r48, r72]) == map["48" := r48, "72" := r72]
  {
    assert Key(48) == "48" && Key(72) == "72";
    assert RsiPeriods[..1] == [48] && [r48, r72][..1] == [r48] && [r48][..0] == [];
    assert PeriodMapOf([48], [r48]) == map["48" := r48];
  }

  /** The Go MACD keys are the ones `%d_%d` makes of their periods. */
  lemma FixedMacdKeys()
    ensures MacdKey(48, 72) == "48_72" && MacdKey(72, 168) == "72_168"
  {
    assert Decimal.IntToString(48) == "48" && Decimal.IntToString(72) == "72" && Decimal.IntToString(168) == "168";
  }

  class IndicatorService {
    /** The Redis entries, read back as the results that were stored. */
    var cache: map<string, IndicatorResult>
    /** Whether the Redis client is initialised. */
    var redisUp: bool

    constructor (redisUp: bool)
      ensures this.redisUp == redisUp && cache == map[]
    {
      this.redisUp := redisUp;
      cache := map[];
    }

    /** GetIndicators: a cached result is returned unchanged; otherwise the
        result is computed from the exchange's answer and, when Redis is up
        and the write succeeds (`saveOk`), stored under the request's key. */
    method GetIndicators(symbol: string, interval: string, limit: int, fetched: Result<seq<Kline>>, saveOk: bool)
        returns (r: Result<IndicatorResult>)
      modifies this
      ensures var key := CacheKey(symbol, interval, limit);
              if old(redisUp) && key in old(cache) then
                r == Ok(old(cache)[key]) && cache == old(cache)
              else
                r == ComputeOf(symbol, interval, fetched) &&
                cache == (if redisUp && saveOk && r.Ok? then old(cache)[key := r.value] else old(cache))
      ensures redisUp == old(redisUp)
    {
      var key := CacheKey(symbol, interval, limit);
      if redisUp && key in cache {
        return Ok(cache[key]);
      }
      if fetched.Err? {
        return Err("fetching klines failed: " + fetched.msg);
      }
      var klines := fetched.value;
      if |klines| == 0 {
        return Err("empty klines");
      }
      var result := Compute(symbol, interval, klines);
      if redisUp && saveOk {
        cache := cache[key := result];
      }
      r := Ok(result);
    }
  }

  /** The computation of GetIndicators over non-empty klines. */
  method Compute(symbol: string, interval: string, klines: seq<Kline>) returns (result: IndicatorResult)
    requires klines != []
    ensures result == ResultOf(symbol, interval, klines)
  {
    var high, low, close, open := NewestFirst(klines);
    var hlccResult := Hlcc.CalculateHlcc(high, low, close);
    var hlcc := hlccResult.value;
    assert hlcc == HlccOfKlines(klines);
    var cciResults := Cci.CalculateCciMulti(hlcc, CciPeriods);
    var cciMap := PeriodMap(CciPeriods, cciResults);
    var macd1 := Macd.CalculateMacd(hlcc, 48, 72, 2);
    var macd2 := Macd.CalculateMacd(hlcc, 72, 168, 2);
    var macdMap := map["48_72" := ToValues(macd1), "72_168" := ToValues(macd2)];
    var rsiResults := Rsi.CalculateRsiMulti(hlcc, RsiPeriods);
    var rsiMap := PeriodMap(RsiPeriods, rsiResults);
    assert cciResults == [Cci.CciOf(hlcc, 48), Cci.CciOf(hlcc, 72), Cci.CciOf(hlcc, 168)];
    assert rsiResults == [Rsi.RsiOf(hlcc, 48), Rsi.RsiOf(hlcc, 72)];
    result := IndicatorResult(symbol, interval, cciMap, macdMap, rsiMap, Some(hlcc));
  }

  /** A request repeated after its result was stored gets the same answer,
      whatever the exchange says the second time. */
  method RepeatedRequest(svc: IndicatorService, symbol: string, interval: string, limit: int,
                         first: Result<seq<Kline>>, second: Result<seq<Kline>>)
      returns (r1: Result<IndicatorResult>, r2: Result<IndicatorResult>)
    requires svc.redisUp
    modifies svc
    ensures r1.Ok? ==> r2 == r1
  {
    r1 := svc.GetIndicators(symbol, interval, limit, first, true);
    r2 := svc.GetIndicators(symbol, interval, limit, second, true);
  }
}
