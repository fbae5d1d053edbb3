/** The records the Go services hand to their clients
    (internal/service/realtime_service.go, internal/service/indicator_service.go)
    and the reversal loop both services run first: the exchange's klines
    arrive oldest first, and every series the services compute is laid out
    newest first. */
module ServiceTypes {
  import opened Wrappers
  import opened Types
  import opened IndexModel
  import Macd
  import Decimal
  import Hlcc

  /** MACDValues: the three MACD slices, each nil when not computed. */
  datatype MacdValues = MacdValues(macdLine: Option<seq<real>>, signalLine: Option<seq<real>>,
                                   histogram: Option<seq<real>>)

  /** The struct literal built from CalculateMACD's three results: all nil
      when it returns nil, otherwise the line, the (possibly nil) signal
      line and the histogram. */
  function ToValues(r: Option<Macd.MacdLines>): (v: MacdValues)
    ensures r.None? <==> v.macdLine.None?
    ensures r.None? ==> v.signalLine.None? && v.histogram.None?
    ensures r.Some? ==> v == MacdValues(Some(r.value.macdLine), r.value.signalLine, Some(r.value.histogram))
  {
    match r
    case None => MacdValues(None, None, None)
    case Some(m) => MacdValues(Some(m.macdLine), m.signalLine, Some(m.histogram))
  }

  /** KlineData: one bar of a pushed snapshot (time in milliseconds). */
  datatype KlineData = KlineData(time: int, open: real, high: real, low: real, close: real, volume: real)

  /** BollingerData / EnvelopeData: the three lines and the zone of the
      current price. */
  datatype BandData = BandData(upper: seq<real>, middle: seq<real>, lower: seq<real>, zone: int)

  /** RealtimeData, without the wall-clock timestamp. */
  datatype RealtimeData = RealtimeData(
    symbol: string, price: real, klines: seq<KlineData>,
    cci: map<string, Option<seq<real>>>, macd: map<string, MacdValues>, rsi: map<string, Option<seq<real>>>,
    bollinger: BandData, envelope: BandData, volatility: real)

  /** IndicatorResult, without the wall-clock timestamp. */
  datatype IndicatorResult = IndicatorResult(
    symbol: string, interval: string,
    cci: map<string, Option<seq<real>>>, macd: map<string, MacdValues>, rsi: map<string, Option<seq<real>>>,
    price: Option<seq<real>>)

  /** The map key of a period, `fmt.Sprintf("%d", p)`. */
  function Key(period: int): string { Decimal.IntToString(period) }

  /** The map key of a MACD set, `fmt.Sprintf("%d_%d", fast, slow)`. */
  function MacdKey(fast: int, slow: int): string
  {
    Decimal.IntToString(fast) + "_" + Decimal.IntToString(slow)
  }

  /** Different (fast, slow) pairs make different MACD keys. */
  lemma MacdKeyInjective(f1: int, s1: int, f2: int, s2: int)
    requires MacdKey(f1, s1) == MacdKey(f2, s2)
    ensures f1 == f2 && s1 == s2
  {
    Decimal.IntToStringAvoids(f1, '_');
    Decimal.IntToStringAvoids(f2, '_');
    Decimal.SeparatedUnique(Decimal.IntToString(f1), Decimal.IntToString(s1),
                            Decimal.IntToString(f2), Decimal.IntToString(s2), '_');
    Decimal.IntToStringInjective(f1, f2);
    Decimal.IntToStringInjective(s1, s2);
  }

  function Highs(ks: seq<Kline>): seq<real> { seq(|ks|, i requires 0 <= i < |ks| => ks[i].high) }
  function Lows(ks: seq<Kline>): seq<real> { seq(|ks|, i requires 0 <= i < |ks| => ks[i].low) }
  function Closes(ks: seq<Kline>): seq<real> { seq(|ks|, i requires 0 <= i < |ks| => ks[i].close) }
  function Opens(ks: seq<Kline>): seq<real> { seq(|ks|, i requires 0 <= i < |ks| => ks[i].open) }

  /** The reversal loop: `high[i] = klines[len-1-i].High` and likewise for
      low, close and open. Each result is the reversed column, so index 0
      holds the newest bar. */
  method NewestFirst(klines: seq<Kline>) returns (high: seq<real>, low: seq<real>, close: seq<real>, open: seq<real>)
    ensures high == Reverse(Highs(klines)) && low == Reverse(Lows(klines))
    ensures close == Reverse(Closes(klines)) && open == Reverse(Opens(klines))
    ensures |high| == |low| == |close| == |open| == |klines|
    ensures forall i :: 0 <= i < |klines| ==>
              high[i] == klines[|klines| - 1 - i].high && low[i] == klines[|klines| - 1 - i].low &&
              close[i] == klines[|klines| - 1 - i].close && open[i] == klines[|klines| - 1 - i].open
  {
    var n := |klines|;
    var h := new real[n](_ => 0.0);
    var l := new real[n](_ => 0.0);
    var c := new real[n](_ => 0.0);
    var o := new real[n](_ => 0.0);
    var i := 0;
    while i < n
      invariant 0 <= i <= n
      invariant forall k :: 0 <= k < i ==> h[k] == klines[n - 1 - k].high
      invariant forall k :: 0 <= k < i ==> l[k] == klines[n - 1 - k].low
      invariant forall k :: 0 <= k < i ==> c[k] == klines[n - 1 - k].close
      invariant forall k :: 0 <= k < i ==> o[k] == klines[n - 1 - k].open
    {
      var idx := n - 1 - i;
      h[i] := klines[idx].high;
      l[i] := klines[idx].low;
      c[i] := klines[idx].close;
      o[i] := klines[idx].open;
      i := i + 1;
    }
    high, low, close, open := h[..], l[..], c[..], o[..];
    ColumnsReversed(klines, high, low, close, open);
  }

  /** Columns filled entry by entry from the far end are the reversed
      columns. */
  lemma ColumnsReversed(klines: seq<Kline>, high: seq<real>, low: seq<real>, close: seq<real>, open: seq<real>)
    requires |high| == |low| == |close| == |open| == |klines|
    requires forall k :: 0 <= k < |klines| ==> high[k] == klines[|klines| - 1 - k].high
    requires forall k :: 0 <= k < |klines| ==> low[k] == klines[|klines| - 1 - k].low
    requires forall k :: 0 <= k < |klines| ==> close[k] == klines[|klines| - 1 - k].close
    requires forall k :: 0 <= k < |klines| ==> open[k] == klines[|klines| - 1 - k].open
    ensures high == Reverse(Highs(klines)) && low == Reverse(Lows(klines))
    ensures close == Reverse(Closes(klines)) && open == Reverse(Opens(klines))
  {
    ReverseAt(Highs(klines));
    ReverseAt(Lows(klines));
    ReverseAt(Closes(klines));
    ReverseAt(Opens(klines));
  }

  /** The newest-first typical price of the klines: what both services
      feed every indicator. */
  function HlccOfKlines(klines: seq<Kline>): (hlcc: seq<real>)
    ensures |hlcc| == |klines|
  {
    var high := Reverse(Highs(klines));
    var low := Reverse(Lows(klines));
    var close := Reverse(Closes(klines));
    Hlcc.HlccOf(high, low, close).value
  }

  /** Entry i of the typical price belongs to kline len−1−i. */
  lemma HlccOfKlinesAt(klines: seq<Kline>, i: int)
    requires 0 <= i < |klines|
    ensures var k := klines[|klines| - 1 - i];
            HlccOfKlines(klines)[i] == Hlcc.Typical(k.high, k.low, k.close)
  {
    ReverseAt(Highs(klines));
    ReverseAt(Lows(klines));
    ReverseAt(Closes(klines));
  }
}
