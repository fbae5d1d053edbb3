/** The realtime service (internal/service/realtime_service.go): it holds
    the current symbol and interval, the klines fetched from the exchange
    (oldest first), and one indicator configuration per symbol. A tick
    rewrites the last kline; a refetch replaces the klines when it brings
    news; each push computes every indicator over the newest-first typical
    price and hands out one snapshot. The configuration repository, the
    exchange and the subscribers are outside the model: what the
    repository answers is a parameter. */
module Realtime {
  import opened Wrappers
  import opened Types
  import opened ServiceTypes
  import Decimal
  import IndexModel
  import Interval
  import Hlcc
  import Cci
  import Macd
  import Rsi
  import Bollinger
  import Envelope
  import Volatility
  import Channel
  import Zones

  // ---- configuration ----

  /** The configuration a push uses for `symbol`: its map entry, or the
      defaults when there is none. */
  function ConfigOf(configs: map<string, IndicatorConfig>, symbol: string): IndicatorConfig
  {
    if symbol in configs then configs[symbol] else DefaultConfig()
  }

  // ---- the tick and the refetch ----

  /** The tick update: the last kline closes at `price`, its high and low
      widen to include it; nothing else changes, and an empty list stays
      empty. */
  function TickOf(klines: seq<Kline>, price: real): (r: seq<Kline>)
    ensures |r| == |klines|
    ensures forall i :: 0 <= i < |klines| - 1 ==> r[i] == klines[i]
    ensures klines != [] ==>
              var last := klines[|klines| - 1];
              var now := r[|r| - 1];
              now.close == price && now.low <= now.close <= now.high &&
              now.high == (if price > last.high then price else last.high) &&
              now.low == (if price < last.low then price else last.low) &&
              now.open == last.open && now.volume == last.volume && now.timestamp == last.timestamp &&
              now.symbol == last.symbol
  {
    if klines == [] then klines
    else
      var last := klines[|klines| - 1];
      var high := if price > last.high then price else last.high;
      var low := if price < last.low then price else last.low;
      klines[|klines| - 1 := last.(close := price, high := high, low := low)]
  }

  /** The refetch rule: take the fetched klines when there are more of them,
      or when both lists are non-empty and the fetched one ends strictly
      later. */
  predicate ShouldReplace(current: seq<Kline>, fetched: seq<Kline>)
  {
    |fetched| > |current|
    || (|fetched| > 0 && |current| > 0 && fetched[|fetched| - 1].timestamp > current[|current| - 1].timestamp)
  }

  /** Fetching the same list again changes nothing. */
  lemma ReplaceStable(current: seq<Kline>, fetched: seq<Kline>)
    ensures !ShouldReplace(if ShouldReplace(current, fetched) then fetched else current, fetched)
  {
  }

  /** A replacement never loses recency: the new list is longer, or ends
      strictly later. */
  lemma ReplaceMakesProgress(current: seq<Kline>, fetched: seq<Kline>)
    requires ShouldReplace(current, fetched)
    ensures |fetched| > |current| || fetched[|fetched| - 1].timestamp > current[|current| - 1].timestamp
  {
  }

  // ---- one push ----

  /** `scalePeriod`: the period scaled to the interval, or the period itself
      when the interval does not parse. */
  function Scale(period: int, interval: string): (p: int)
    ensures Interval.IntervalToMinutes(interval).Ok? ==> p >= 1
    ensures Interval.IntervalToMinutes(interval).Err? ==> p == period
  {
    match Interval.ScalePeriod(period, interval)
    case Ok(v) => v
    case Err(_) => period
  }

  /** CalculateMACD over `n` prices indexes past its slices (a run-time
      panic) exactly here: a period below 1 reaches a WMA or the MACD-line
      loop unless the length check returns nil first. */
  predicate MacdPanics(n: int, fast: int, slow: int, signal: int)
  {
    n >= slow && (fast < 1 || slow < 1 || (fast <= n && signal < 1))
  }

  /** The MACD entry of a push: all nil when the input is too short for
      either WMA. */
  function MacdValuesOf(hlcc: seq<real>, fast: int, slow: int, signal: int): MacdValues
    requires !MacdPanics(|hlcc|, fast, slow, signal)
  {
    if |hlcc| < slow || |hlcc| < fast then MacdValues(None, None, None)
    else ToValues(Macd.MacdOf(hlcc, fast, slow, signal))
  }

  /** The effective (scaled) periods of one push. */
  datatype Periods = Periods(
    cci1: int, cci2: int, cci3: int,
    fast1: int, slow1: int, signal1: int, fast2: int, slow2: int, signal2: int,
    rsi1: int, rsi2: int, boll: int, env: int)

  function PeriodsOf(c: IndicatorConfig, interval: string): Periods
  {
    Periods(
      Scale(c.cciPeriod1, interval), Scale(c.cciPeriod2, interval), Scale(c.cciPeriod3, interval),
      Scale(c.macdFast1, interval), Scale(c.macdSlow1, interval), Scale(c.macdSignal1, interval),
      Scale(c.macdFast2, interval), Scale(c.macdSlow2, interval), Scale(c.macdSignal2, interval),
      Scale(c.rsiPeriod1, interval), Scale(c.rsiPeriod2, interval),
      Scale(c.bollPeriod, interval), Scale(c.envPeriod, interval))
  }

  /** A push over `n` klines panics: a CCI or RSI period below 1 reaches
      the WMA, a MACD set panics as above, or the Bollinger or envelope
      kernel returns nil (or panics) and its first entry is read. */
  predicate Panics(n: int, p: Periods)
  {
    p.cci1 < 1 || p.cci2 < 1 || p.cci3 < 1
    || MacdPanics(n, p.fast1, p.slow1, p.signal1) || MacdPanics(n, p.fast2, p.slow2, p.signal2)
    || p.rsi1 < 1 || p.rsi2 < 1
    || p.boll < 1 || n < p.boll || p.env < 1 || n < p.env
  }

  function CciMapOf(hlcc: seq<real>, c: IndicatorConfig, p: Periods): map<string, Option<seq<real>>>
    requires p.cci1 >= 1 && p.cci2 >= 1 && p.cci3 >= 1
  {
    map[Key(c.cciPeriod1) := Cci.CciOf(hlcc, p.cci1)]
       [Key(c.cciPeriod2) := Cci.CciOf(hlcc, p.cci2)]
       [Key(c.cciPeriod3) := Cci.CciOf(hlcc, p.cci3)]
  }

  function RsiMapOf(hlcc: seq<real>, c: IndicatorConfig, p: Periods): map<string, Option<seq<real>>>
    requires p.rsi1 >= 1 && p.rsi2 >= 1
  {
    map[Key(c.rsiPeriod1) := Rsi.RsiOf(hlcc, p.rsi1)][Key(c.rsiPeriod2) := Rsi.RsiOf(hlcc, p.rsi2)]
  }

  function MacdMapOf(hlcc: seq<real>, c: IndicatorConfig, p: Periods): map<string, MacdValues>
    requires !MacdPanics(|hlcc|, p.fast1, p.slow1, p.signal1) && !MacdPanics(|hlcc|, p.fast2, p.slow2, p.signal2)
  {
    map[MacdKey(c.macdFast1, c.macdSlow1) := MacdValuesOf(hlcc, p.fast1, p.slow1, p.signal1)]
       [MacdKey(c.macdFast2, c.macdSlow2) := MacdValuesOf(hlcc, p.fast2, p.slow2, p.signal2)]
  }

  function ToKlineData(k: Kline): KlineData
  {
    KlineData(k.timestamp, k.open, k.high, k.low, k.close, k.volume)
  }

  /** The pushed bars, newest first. */
  function KlineDataOf(klines: seq<Kline>): seq<KlineData>
  {
    IndexModel.Reverse(seq(|klines|, i requires 0 <= i < |klines| => ToKlineData(klines[i])))
  }

  function BandDataOf(b: Channel.Bands, price: real): BandData
    requires |b.middle| > 0 && |b.upper| > 0 && |b.lower| > 0
  {
    BandData(b.upper, b.middle, b.lower, Zones.GoZone(price, b.middle[0], b.upper[0], b.lower[0]))
  }

  /** The snapshot of a push that does not panic. */
  function SnapshotOf(klines: seq<Kline>, c: IndicatorConfig, symbol: string, p: Periods,
                      sqrt: real -> real): RealtimeData
    requires klines != [] && !Panics(|klines|, p)
  {
    var hlcc := HlccOfKlines(klines);
    var price := klines[|klines| - 1].close;
    var boll := Bollinger.BollingerOf(hlcc, p.boll, c.bollDeviation, sqrt).value;
    var env := Envelope.EnvelopeOf(hlcc, p.env, c.envDeviation).value;
    RealtimeData(
      symbol, price, KlineDataOf(klines),
      CciMapOf(hlcc, c, p), MacdMapOf(hlcc, c, p), RsiMapOf(hlcc, c, p),
      BandDataOf(boll, price), BandDataOf(env, price),
      Volatility.Volatility5DaysOf(klines))
  }

  datatype PushOutcome = NoPush | Crash | Pushed(data: RealtimeData)

  /** calculateAndPush as a function of the state it reads: nothing for
      an empty kline list, a run-time panic, or one snapshot. */
  function PushOf(klines: seq<Kline>, c: IndicatorConfig, symbol: string, interval: string,
                  sqrt: real -> real): (r: PushOutcome)
    ensures r.NoPush? <==> klines == []
    ensures Interval.IntervalToMinutes(interval).Ok? ==>
              (r.Crash? <==>
                 klines != [] && (|klines| < Scale(c.bollPeriod, interval) || |klines| < Scale(c.envPeriod, interval)))
  {
    if klines == [] then NoPush
    else if Panics(|klines|, PeriodsOf(c, interval)) then Crash
    else Pushed(SnapshotOf(klines, c, symbol, PeriodsOf(c, interval), sqrt))
  }

  // ---- the service object ----

  class RealtimeService {
    var symbol: string
    var interval: string
    var klines: seq<Kline>
    var configs: map<string, IndicatorConfig>
    /** Whether a configuration repository is attached. */
    var hasRepo: bool

    /** The configuration the next push uses. */
    function CurrentConfig(): IndicatorConfig
      reads this
    {
      ConfigOf(configs, symbol)
    }

    /** NewRealtimeService: the symbol's configuration is the one the
        repository loads (`loaded`, None when it fails), or the defaults. */
    constructor (symbol: string, interval: string, hasRepo: bool, loaded: Option<IndicatorConfig>)
      ensures this.symbol == symbol && this.interval == interval && this.hasRepo == hasRepo
      ensures klines == []
      ensures configs == map[symbol := if hasRepo && loaded.Some? then loaded.value else DefaultConfig()]
    {
      this.symbol := symbol;
      this.interval := interval;
      this.hasRepo := hasRepo;
      klines := [];
      if hasRepo {
        if loaded.None? {
          configs := map[symbol := DefaultConfig()];
        } else {
          configs := map[symbol := loaded.value];
        }
      } else {
        configs := map[symbol := DefaultConfig()];
      }
    }

    /** UpdateConfig: the map entry is written first, so it stays even when
        saving (`saveFailed`) then fails; an error is reported exactly when
        a repository is attached and the save failed. */
    method UpdateConfig(sym: string, config: IndicatorConfig, saveFailed: bool) returns (failed: bool)
      modifies this
      ensures configs == old(configs)[sym := config]
      ensures failed <==> hasRepo && saveFailed
      ensures symbol == old(symbol) && interval == old(interval) && klines == old(klines) && hasRepo == old(hasRepo)
    {
      configs := configs[sym := config];
      failed := false;
      if hasRepo {
        if saveFailed {
          failed := true;
        }
      }
    }

    /** GetConfig: the map entry when there is one; otherwise what the
        repository returns (`stored`), which is then cached; otherwise the
        defaults, which are not cached. */
    method GetConfig(sym: string, stored: Option<IndicatorConfig>) returns (config: IndicatorConfig)
      modifies this
      ensures sym in old(configs) ==> config == old(configs)[sym] && configs == old(configs)
      ensures sym !in old(configs) && hasRepo && stored.Some? ==>
                config == stored.value && configs == old(configs)[sym := stored.value]
      ensures sym !in old(configs) && !(hasRepo && stored.Some?) ==>
                config == DefaultConfig() && configs == old(configs)
      ensures symbol == old(symbol) && interval == old(interval) && klines == old(klines) && hasRepo == old(hasRepo)
    {
      if sym in configs {
        return configs[sym];
      }
      if hasRepo && stored.Some? {
        configs := configs[sym := stored.value];
        return stored.value;
      }
      return DefaultConfig();
    }

    /** The tick branch of tickLoop. */
    method ApplyTick(price: real)
      modifies this
      ensures klines == TickOf(old(klines), price)
      ensures symbol == old(symbol) && interval == old(interval) && configs == old(configs) && hasRepo == old(hasRepo)
    {
      if |klines| > 0 {
        var lastIdx := |klines| - 1;
        var k := klines[lastIdx];
        k := k.(close := price);
        if price > k.high {
          k := k.(high := price);
        }
        if price < k.low {
          k := k.(low := price);
        }
        klines := klines[lastIdx := k];
      }
    }

    /** The replacement step of klineUpdateLoop, given the fetched klines. */
    method ReplaceKlines(fetched: seq<Kline>)
      modifies this
      ensures klines == if ShouldReplace(old(klines), fetched) then fetched else old(klines)
      ensures symbol == old(symbol) && interval == old(interval) && configs == old(configs) && hasRepo == old(hasRepo)
    {
      if |fetched| > |klines| || (|fetched| > 0 && |klines| > 0 && fetched[|fetched| - 1].timestamp > klines[|klines| - 1].timestamp) {
        klines := fetched;
      }
    }

    /** calculateAndPush: the snapshot it would send to the subscribers. */
    method CalculateAndPush(sqrt: real -> real) returns (outcome: PushOutcome)
      ensures outcome == PushOf(klines, CurrentConfig(), symbol, interval, sqrt)
    {
      var ks := klines;
      if |ks| == 0 {
        return NoPush;
      }
      var config := if symbol in configs then configs[symbol] else DefaultConfig();
      var p := PeriodsOf(config, interval);
      if Panics(|ks|, p) {
        return Crash;
      }
      var data := Snapshot(ks, config, symbol, p, sqrt);
      outcome := Pushed(data);
    }
  }

  /** The body of a push that does not panic. */
  method Snapshot(ks: seq<Kline>, config: IndicatorConfig, symbol: string, p: Periods, sqrt: real -> real)
      returns (data: RealtimeData)
    requires ks != [] && !Panics(|ks|, p)
    ensures data == SnapshotOf(ks, config, symbol, p, sqrt)
  {
    var high, low, close, open := NewestFirst(ks);
    var hlccResult := Hlcc.CalculateHlcc(high, low, close);
    var hlcc := hlccResult.value;
    assert hlcc == HlccOfKlines(ks);
    var cciMap := CciMap(hlcc, config, p);
    var macdMap := MacdMap(hlcc, config, p);
    var rsiMap := RsiMap(hlcc, config, p);
    var currentPrice := close[0];
    var boll, env := BandsFor(hlcc, currentPrice, config, p, sqrt);
    var volatility := Volatility.CalculateVolatility5Days(ks);
    var klineData := BuildKlineData(ks, open, high, low, close);
    data := RealtimeData(symbol, close[0], klineData, cciMap, macdMap, rsiMap, boll, env, volatility);
  }

  /** The Bollinger and envelope parts of a push, each with the zone of
      the current price at index 0. */
  method BandsFor(hlcc: seq<real>, currentPrice: real, config: IndicatorConfig, p: Periods, sqrt: real -> real)
      returns (boll: BandData, env: BandData)
    requires 1 <= p.boll <= |hlcc| && 1 <= p.env <= |hlcc|
    ensures boll == BandDataOf(Bollinger.BollingerOf(hlcc, p.boll, config.bollDeviation, sqrt).value, currentPrice)
    ensures env == BandDataOf(Envelope.EnvelopeOf(hlcc, p.env, config.envDeviation).value, currentPrice)
  {
    var b := Bollinger.CalculateBollinger(hlcc, p.boll, config.bollDeviation, sqrt);
    var e := Envelope.CalculateEnvelope(hlcc, p.env, config.envDeviation);
    var bollZone := Zones.GoZone(currentPrice, b.value.middle[0], b.value.upper[0], b.value.lower[0]);
    var envZone := Zones.GoZone(currentPrice, e.value.middle[0], e.value.upper[0], e.value.lower[0]);
    boll := BandData(b.value.upper, b.value.middle, b.value.lower, bollZone);
    env := BandData(e.value.upper, e.value.middle, e.value.lower, envZone);
  }

  /** The CCI part of a push: CalculateCCIMulti over the scaled periods
      and one map write per configured period. */
  method CciMap(hlcc: seq<real>, c: IndicatorConfig, p: Periods) returns (m: map<string, Option<seq<real>>>)
    requires p.cci1 >= 1 && p.cci2 >= 1 && p.cci3 >= 1
    ensures m == CciMapOf(hlcc, c, p)
  {
    var results := Cci.CalculateCciMulti(hlcc, [p.cci1, p.cci2, p.cci3]);
    m := map[];
    m := m[Key(c.cciPeriod1) := results[0]];
    m := m[Key(c.cciPeriod2) := results[1]];
    m := m[Key(c.cciPeriod3) := results[2]];
  }

  method RsiMap(hlcc: seq<real>, c: IndicatorConfig, p: Periods) returns (m: map<string, Option<seq<real>>>)
    requires p.rsi1 >= 1 && p.rsi2 >= 1
    ensures m == RsiMapOf(hlcc, c, p)
  {
    var results := Rsi.CalculateRsiMulti(hlcc, [p.rsi1, p.rsi2]);
    m := map[];
    m := m[Key(c.rsiPeriod1) := results[0]];
    m := m[Key(c.rsiPeriod2) := results[1]];
  }

  /** One CalculateMACD call of a push, its nil early returns included. */
  method MacdFor(hlcc: seq<real>, fast: int, slow: int, signal: int) returns (v: MacdValues)
    requires !MacdPanics(|hlcc|, fast, slow, signal)
    ensures v == MacdValuesOf(hlcc, fast, slow, signal)
  {
    if |hlcc| < slow || |hlcc| < fast {
      return MacdValues(None, None, None);
    }
    var r := Macd.CalculateMacd(hlcc, fast, slow, signal);
    v := ToValues(r);
  }

  method MacdMap(hlcc: seq<real>, c: IndicatorConfig, p: Periods) returns (m: map<string, MacdValues>)
    requires !MacdPanics(|hlcc|, p.fast1, p.slow1, p.signal1) && !MacdPanics(|hlcc|, p.fast2, p.slow2, p.signal2)
    ensures m == MacdMapOf(hlcc, c, p)
  {
    var m1 := MacdFor(hlcc, p.fast1, p.slow1, p.signal1);
    var m2 := MacdFor(hlcc, p.fast2, p.slow2, p.signal2);
    m := map[];
    m := m[MacdKey(c.macdFast1, c.macdSlow1) := m1];
    m := m[MacdKey(c.macdFast2, c.macdSlow2) := m2];
  }

  /** The KlineData loop: bar i of the snapshot is kline len−1−i, with the
      prices taken from the reversed columns. */
  method BuildKlineData(ks: seq<Kline>, open: seq<real>, high: seq<real>, low: seq<real>, close: seq<real>)
      returns (data: seq<KlineData>)
    requires |open| == |high| == |low| == |close| == |ks|
    requires forall i :: 0 <= i < |ks| ==>
               high[i] == ks[|ks| - 1 - i].high && low[i] == ks[|ks| - 1 - i].low &&
               close[i] == ks[|ks| - 1 - i].close && open[i] == ks[|ks| - 1 - i].open
    ensures data == KlineDataOf(ks)
  {
    var n := |ks|;
    var a := new KlineData[n](_ => KlineData(0, 0.0, 0.0, 0.0, 0.0, 0.0));
    var i := 0;
    while i < n
      invariant 0 <= i <= n
      invariant forall k :: 0 <= k < i ==> a[k] == ToKlineData(ks[n - 1 - k])
    {
      var idx := n - 1 - i;
      a[i] := KlineData(ks[idx].timestamp, open[i], high[i], low[i], close[i], ks[idx].volume);
      i := i + 1;
    }
    data := a[..];
    ghost var bars := seq(n, k requires 0 <= k < n => ToKlineData(ks[k]));
    IndexModel.ReverseAt(bars);
  }

  // ---- what a push promises ----

  /** A snapshot is laid out newest first: its price is the close of the
      last kline, bar i is kline len−1−i, and both zones are in −10..10;
      its volatility is never negative. */
  lemma SnapshotNewestFirst(klines: seq<Kline>, c: IndicatorConfig, symbol: string, p: Periods,
                            sqrt: real -> real)
    requires klines != [] && !Panics(|klines|, p)
    ensures var d := SnapshotOf(klines, c, symbol, p, sqrt);
            var n := |klines|;
            d.symbol == symbol && d.price == klines[n - 1].close &&
            |d.klines| == n &&
            (forall i :: 0 <= i < n ==> d.klines[i] == ToKlineData(klines[n - 1 - i])) &&
            -10 <= d.bollinger.zone <= 10 && -10 <= d.envelope.zone <= 10 &&
            d.volatility >= 0.0
    ensures var d := SnapshotOf(klines, c, symbol, p, sqrt);
            var n := |klines|;
            |d.bollinger.upper| == n && |d.bollinger.middle| == n && |d.bollinger.lower| == n &&
            |d.envelope.upper| == n && |d.envelope.middle| == n && |d.envelope.lower| == n &&
            d.bollinger.zone == Zones.GoZone(d.price, d.bollinger.middle[0], d.bollinger.upper[0], d.bollinger.lower[0]) &&
            d.envelope.zone == Zones.GoZone(d.price, d.envelope.middle[0], d.envelope.upper[0], d.envelope.lower[0])
  {
    KlineDataNewestFirst(klines);
    Volatility.Volatility5DaysNonNegative(klines);
  }

  /** Bar i of the snapshot is kline len−1−i. */
  lemma KlineDataNewestFirst(klines: seq<Kline>)
    ensures |KlineDataOf(klines)| == |klines|
    ensures forall i :: 0 <= i < |klines| ==> KlineDataOf(klines)[i] == ToKlineData(klines[|klines| - 1 - i])
  {
    var bars := seq(|klines|, i requires 0 <= i < |klines| => ToKlineData(klines[i]));
    IndexModel.ReverseAt(bars);
  }

  lemma PushNewestFirst(klines: seq<Kline>, c: IndicatorConfig, symbol: string, interval: string,
                        sqrt: real -> real)
    requires PushOf(klines, c, symbol, interval, sqrt).Pushed?
    ensures var d := PushOf(klines, c, symbol, interval, sqrt).data;
            var n := |klines|;
            d.symbol == symbol && d.price == klines[n - 1].close &&
            |d.klines| == n &&
            (forall i :: 0 <= i < n ==> d.klines[i] == ToKlineData(klines[n - 1 - i])) &&
            -10 <= d.bollinger.zone <= 10 && -10 <= d.envelope.zone <= 10 &&
            d.volatility >= 0.0
    ensures var d := PushOf(klines, c, symbol, interval, sqrt).data;
            var n := |klines|;
            |d.bollinger.upper| == n && |d.bollinger.middle| == n && |d.bollinger.lower| == n &&
            |d.envelope.upper| == n && |d.envelope.middle| == n && |d.envelope.lower| == n &&
            d.bollinger.zone == Zones.GoZone(d.price, d.bollinger.middle[0], d.bollinger.upper[0], d.bollinger.lower[0]) &&
            d.envelope.zone == Zones.GoZone(d.price, d.envelope.middle[0], d.envelope.upper[0], d.envelope.lower[0])
  {
    SnapshotNewestFirst(klines, c, symbol, PeriodsOf(c, interval), sqrt);
  }

  /** The CCI map of a snapshot: one key per configured (unscaled) period,
      each holding the CCI over the scaled period. */
  lemma PushCci(klines: seq<Kline>, c: IndicatorConfig, symbol: string, interval: string,
                sqrt: real -> real, x: int)
    requires PushOf(klines, c, symbol, interval, sqrt).Pushed?
    ensures var d := PushOf(klines, c, symbol, interval, sqrt).data;
            (Key(x) in d.cci <==> x == c.cciPeriod1 || x == c.cciPeriod2 || x == c.cciPeriod3) &&
            (Key(x) in d.cci ==> Scale(x, interval) >= 1 &&
                                 d.cci[Key(x)] == Cci.CciOf(HlccOfKlines(klines), Scale(x, interval)))
  {
    var p := PeriodsOf(c, interval);
    assert PushOf(klines, c, symbol, interval, sqrt).data.cci == CciMapOf(HlccOfKlines(klines), c, p);
    CciMapKeys(HlccOfKlines(klines), c, interval, x);
  }

  lemma CciMapKeys(hlcc: seq<real>, c: IndicatorConfig, interval: string, x: int)
    requires var p := PeriodsOf(c, interval); p.cci1 >= 1 && p.cci2 >= 1 && p.cci3 >= 1
    ensures var m := CciMapOf(hlcc, c, PeriodsOf(c, interval));
            (Key(x) in m <==> x == c.cciPeriod1 || x == c.cciPeriod2 || x == c.cciPeriod3) &&
            (Key(x) in m ==> Scale(x, interval) >= 1 && m[Key(x)] == Cci.CciOf(hlcc, Scale(x, interval)))
  {
    if Key(x) == Key(c.cciPeriod1) { Decimal.IntToStringInjective(x, c.cciPeriod1); }
    if Key(x) == Key(c.cciPeriod2) { Decimal.IntToStringInjective(x, c.cciPeriod2); }
    if Key(x) == Key(c.cciPeriod3) { Decimal.IntToStringInjective(x, c.cciPeriod3); }
  }

  /** The RSI map of a snapshot, likewise. */
  lemma PushRsi(klines: seq<Kline>, c: IndicatorConfig, symbol: string, interval: string,
                sqrt: real -> real, x: int)
    requires PushOf(klines, c, symbol, interval, sqrt).Pushed?
    ensures var d := PushOf(klines, c, symbol, interval, sqrt).data;
            (Key(x) in d.rsi <==> x == c.rsiPeriod1 || x == c.rsiPeriod2) &&
            (Key(x) in d.rsi ==> Scale(x, interval) >= 1 &&
                                 d.rsi[Key(x)] == Rsi.RsiOf(HlccOfKlines(klines), Scale(x, interval)))
  {
    var p := PeriodsOf(c, interval);
    assert PushOf(klines, c, symbol, interval, sqrt).data.rsi == RsiMapOf(HlccOfKlines(klines), c, p);
    RsiMapKeys(HlccOfKlines(klines), c, interval, x);
  }

  lemma RsiMapKeys(hlcc: seq<real>, c: IndicatorConfig, interval: string, x: int)
    requires var p := PeriodsOf(c, interval); p.rsi1 >= 1 && p.rsi2 >= 1
    ensures var m := RsiMapOf(hlcc, c, PeriodsOf(c, interval));
            (Key(x) in m <==> x == c.rsiPeriod1 || x == c.rsiPeriod2) &&
            (Key(x) in m ==> Scale(x, interval) >= 1 && m[Key(x)] == Rsi.RsiOf(hlcc, Scale(x, interval)))
  {
    if Key(x) == Key(c.rsiPeriod1) { Decimal.IntToStringInjective(x, c.rsiPeriod1); }
    if Key(x) == Key(c.rsiPeriod2) { Decimal.IntToStringInjective(x, c.rsiPeriod2); }
  }

  /** The MACD map of a snapshot: one key per configured (fast, slow)
      pair. The second set is written last, so it wins when both sets
      share a key. */
  lemma PushMacd(klines: seq<Kline>, c: IndicatorConfig, symbol: string, interval: string,
                 sqrt: real -> real, fast: int, slow: int)
    requires PushOf(klines, c, symbol, interval, sqrt).Pushed?
    ensures var d := PushOf(klines, c, symbol, interval, sqrt).data;
            var hlcc := HlccOfKlines(klines);
            var p := PeriodsOf(c, interval);
            (MacdKey(fast, slow) in d.macd <==>
               (fast == c.macdFast1 && slow == c.macdSlow1) || (fast == c.macdFast2 && slow == c.macdSlow2)) &&
            d.macd[MacdKey(c.macdFast2, c.macdSlow2)] == MacdValuesOf(hlcc, p.fast2, p.slow2, p.signal2) &&
            ((c.macdFast1 != c.macdFast2 || c.macdSlow1 != c.macdSlow2) ==>
               d.macd[MacdKey(c.macdFast1, c.macdSlow1)] == MacdValuesOf(hlcc, p.fast1, p.slow1, p.signal1))
  {
    var p := PeriodsOf(c, interval);
    assert PushOf(klines, c, symbol, interval, sqrt).data.macd == MacdMapOf(HlccOfKlines(klines), c, p);
    MacdMapKeys(HlccOfKlines(klines), c, p, fast, slow);
  }

  lemma MacdMapKeys(hlcc: seq<real>, c: IndicatorConfig, p: Periods, fast: int, slow: int)
    requires !MacdPanics(|hlcc|, p.fast1, p.slow1, p.signal1) && !MacdPanics(|hlcc|, p.fast2, p.slow2, p.signal2)
    ensures var m := MacdMapOf(hlcc, c, p);
            (MacdKey(fast, slow) in m <==>
               (fast == c.macdFast1 && slow == c.macdSlow1) || (fast == c.macdFast2 && slow == c.macdSlow2)) &&
            m[MacdKey(c.macdFast2, c.macdSlow2)] == MacdValuesOf(hlcc, p.fast2, p.slow2, p.signal2) &&
            ((c.macdFast1 != c.macdFast2 || c.macdSlow1 != c.macdSlow2) ==>
               m[MacdKey(c.macdFast1, c.macdSlow1)] == MacdValuesOf(hlcc, p.fast1, p.slow1, p.signal1))
  {
    if MacdKey(fast, slow) == MacdKey(c.macdFast1, c.macdSlow1) {
      MacdKeyInjective(fast, slow, c.macdFast1, c.macdSlow1);
    }
    if MacdKey(fast, slow) == MacdKey(c.macdFast2, c.macdSlow2) {
      MacdKeyInjective(fast, slow, c.macdFast2, c.macdSlow2);
    }
    if MacdKey(c.macdFast1, c.macdSlow1) == MacdKey(c.macdFast2, c.macdSlow2) {
      MacdKeyInjective(c.macdFast1, c.macdSlow1, c.macdFast2, c.macdSlow2);
    }
  }

  /** On hourly klines the default periods are used unscaled. */
  lemma DefaultPeriodsHourly()
    ensures PeriodsOf(DefaultConfig(), "1h") == Periods(48, 72, 168, 48, 72, 2, 72, 168, 2, 48, 72, 24, 24)
  {
    Interval.IntervalExamples();
    Interval.ScaleByMinutesValue(48, 60);
    Interval.ScaleByMinutesValue(72, 60);
    Interval.ScaleByMinutesValue(168, 60);
    Interval.ScaleByMinutesValue(2, 60);
    Interval.ScaleByMinutesValue(24, 60);
  }

  /** With the default configuration on hourly klines a push succeeds
      exactly when there are at least 24 klines. */
  lemma DefaultPushHourly(klines: seq<Kline>, symbol: string, sqrt: real -> real)
    requires klines != []
    ensures PushOf(klines, DefaultConfig(), symbol, "1h", sqrt).Pushed? <==> |klines| >= 24
  {
    DefaultPeriodsHourly();
  }

  /** After a tick at `price`, the next snapshot reports that price, as the
      close of its newest bar too. */
  lemma PushAfterTick(klines: seq<Kline>, price: real, c: IndicatorConfig, symbol: string, interval: string,
                      sqrt: real -> real)
    requires PushOf(TickOf(klines, price), c, symbol, interval, sqrt).Pushed?
    ensures var d := PushOf(TickOf(klines, price), c, symbol, interval, sqrt).data;
            d.price == price && d.klines[0].close == price
  {
    PushNewestFirst(TickOf(klines, price), c, symbol, interval, sqrt);
  }
}
