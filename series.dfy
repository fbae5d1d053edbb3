/** The series factories of web/static/app-refactored.js and the price
    range of the main panel's axis. Every series is drawn from a reversed
    copy of its newest-first source array, so display index d shows source
    index len − 1 − d; the source arrays themselves are never changed
    (values cannot be mutated here, which is what `slice()` guarantees). */
module Series {
  import opened Wrappers
  import opened JsMath
  import opened ServiceTypes
  import opened ChartData
  import IndexModel
  import Decimal

  datatype Kind = Candlestick | LineKind | BarKind

  /** One entry of a series' `data`: a candle `[open, close, low, high]`
      or a number. */
  datatype Point = Ohlc(open: real, close: real, low: real, high: real) | Scalar(v: JsNum)

  /** A series option: its name, type, `xAxisIndex` (None when absent),
      data, and the colours of `lineStyle` and `itemStyle`. */
  datatype Series = Series(name: string, kind: Kind, axis: Option<int>, data: seq<Point>,
                           lineColor: Option<string>, itemColor: Option<string>)

  function OhlcOf(k: KlineData): Point { Ohlc(k.open, k.close, k.low, k.high) }

  /** `klines.slice().reverse().map(k => [k.open, k.close, k.low, k.high])`. */
  function Candles(ks: seq<KlineData>): (r: seq<Point>)
    ensures |r| == |ks|
    ensures forall d :: 0 <= d < |ks| ==> r[d] == OhlcOf(ks[|ks| - 1 - d])
  {
    var rev := IndexModel.Reverse(ks);
    IndexModel.ReverseAt(ks);
    seq(|rev|, d requires 0 <= d < |rev| => OhlcOf(rev[d]))
  }

  /** `values.slice().reverse()`, as series data. */
  function Scalars(s: seq<JsNum>): (r: seq<Point>)
    ensures |r| == |s|
    ensures forall d :: 0 <= d < |s| ==> r[d] == Scalar(s[|s| - 1 - d])
  {
    var rev := IndexModel.Reverse(s);
    IndexModel.ReverseAt(s);
    seq(|rev|, d requires 0 <= d < |rev| => Scalar(rev[d]))
  }

  /** `v ? v.slice().reverse() : []`: a null array draws nothing. */
  function OptScalars(s: Option<seq<JsNum>>): (r: seq<Point>)
    ensures s.None? ==> r == []
    ensures s.Some? ==> |r| == |s.value| && forall d :: 0 <= d < |s.value| ==> r[d] == Scalar(s.value[|s.value| - 1 - d])
  {
    if s.None? then [] else Scalars(s.value)
  }

  const CandleUp: string := "#0ecb81"
  const Blue: string := "#4A90E2"
  const Gold: string := "#F3BA2F"
  const Red: string := "#E74C3C"
  const Purple: string := "#9B59B6"
  const Green: string := "#2ECC71"
  const Grey: string := "#848e9c"

  function LineOf(name: string, g: int, data: seq<Point>, color: string): Series
  {
    Series(name, LineKind, Some(g), data, Some(color), None)
  }

  /** The three lines of a band object, upper, middle and lower. */
  function BandLines(b: Band, g: int, names: seq<string>, outer: string, middle: string): (r: seq<Series>)
    requires |names| == 3
  {
    [LineOf(names[0], g, Scalars(b.upper), outer),
     LineOf(names[1], g, Scalars(b.middle), middle),
     LineOf(names[2], g, Scalars(b.lower), outer)]
  }

  const BollNames: seq<string> := ["布林上轨", "布林中轨", "布林下轨"]
  const EnvNames: seq<string> := ["包络上轨", "包络中轨", "包络下轨"]

  /** A series shows the source array `src` reversed. */
  predicate Shows(s: Series, src: seq<JsNum>)
  {
    |s.data| == |src| && forall d :: 0 <= d < |src| ==> s.data[d] == Scalar(src[|src| - 1 - d])
  }

  /** createMainPanelSeries: the candlestick first, then the Bollinger
      lines when the band object exists, then the envelope lines. */
  function MainPanelSeries(data: Snapshot, g: int): (r: seq<Series>)
    ensures |r| == 1 + (if data.bollinger.Some? then 3 else 0) + (if data.envelope.Some? then 3 else 0)
    ensures forall i :: 0 <= i < |r| ==> r[i].axis == Some(g)
    ensures r[0].kind == Candlestick && |r[0].data| == |data.klines|
    ensures forall d :: 0 <= d < |data.klines| ==> r[0].data[d] == OhlcOf(data.klines[|data.klines| - 1 - d])
    ensures data.bollinger.Some? ==>
              var b := data.bollinger.value;
              Shows(r[1], b.upper) && Shows(r[2], b.middle) && Shows(r[3], b.lower)
    ensures data.envelope.Some? ==>
              var e := data.envelope.value;
              var n := |r|;
              Shows(r[n - 3], e.upper) && Shows(r[n - 2], e.middle) && Shows(r[n - 1], e.lower)
  {
    var candles := [Series("K线", Candlestick, Some(g), Candles(data.klines), None, Some(CandleUp))];
    var boll := if data.bollinger.Some? then BandLines(data.bollinger.value, g, BollNames, Blue, Gold) else [];
    var env := if data.envelope.Some? then BandLines(data.envelope.value, g, EnvNames, Red, Purple) else [];
    candles + boll + env
  }

  /** The three series of one MACD entry: histogram bars, the MACD line and
      the signal line, each empty when its array is null. */
  function MacdSeries(ordinal: string, key: string, e: MacdEntry, g: int, barColor: string, lineColor: string)
    : (r: seq<Series>)
    ensures |r| == 3 && r[0].kind == BarKind && r[1].kind == LineKind && r[2].kind == LineKind
    ensures r[0].data == OptScalars(e.histogram) && r[1].data == OptScalars(e.macdLine)
    ensures r[2].data == OptScalars(e.signalLine)
    ensures forall i :: 0 <= i < 3 ==> r[i].axis == Some(g)
  {
    [Series("MACD" + ordinal + "(" + key + ")柱状图", BarKind, Some(g), OptScalars(e.histogram), None, Some(barColor)),
     LineOf("MACD" + ordinal + "(" + key + ")线", g, OptScalars(e.macdLine), lineColor),
     LineOf("MACD" + ordinal + "(" + key + ")信号线", g, OptScalars(e.signalLine), Grey)]
  }

  /** The series of the entry at `i`: none when the key is missing or its
      value is null, otherwise its three series. */
  function EntrySeries(entries: seq<(string, Option<MacdEntry>)>, i: nat, ordinal: string, g: int,
                       barColor: string, lineColor: string): (r: seq<Series>)
    ensures |r| == 0 || |r| == 3
    ensures forall j :: 0 <= j < |r| ==> r[j].axis == Some(g)
  {
    if i < |entries| && entries[i].1.Some? then MacdSeries(ordinal, entries[i].0, entries[i].1.value, g, barColor, lineColor)
    else []
  }

  /** createMACDPanelSeries: only the first two keys of `data.macd` are
      drawn, each when its value is an object. */
  function MacdPanelSeries(macd: Option<seq<(string, Option<MacdEntry>)>>, g: int): (r: seq<Series>)
    ensures macd.None? ==> r == []
    ensures |r| == 0 || |r| == 3 || |r| == 6
    ensures forall i :: 0 <= i < |r| ==> r[i].axis == Some(g)
  {
    match macd
    case None => []
    case Some(entries) => EntrySeries(entries, 0, "1", g, Blue, Gold) + EntrySeries(entries, 1, "2", g, Red, Purple)
  }

  /** Keys past the second never reach the chart. */
  lemma MacdFirstTwoOnly(entries: seq<(string, Option<MacdEntry>)>, extra: seq<(string, Option<MacdEntry>)>, g: int)
    requires |entries| >= 2
    ensures MacdPanelSeries(Some(entries + extra), g) == MacdPanelSeries(Some(entries), g)
  {
    assert (entries + extra)[0] == entries[0] && (entries + extra)[1] == entries[1];
  }

  /** With two MACD objects the panel shows their six series in key
      order, each reversing its source array. */
  lemma MacdTwoEntries(k1: string, e1: MacdEntry, k2: string, e2: MacdEntry, g: int)
    ensures var r := MacdPanelSeries(Some([(k1, Some(e1)), (k2, Some(e2))]), g);
            |r| == 6 &&
            r[0].data == OptScalars(e1.histogram) && r[1].data == OptScalars(e1.macdLine) &&
            r[2].data == OptScalars(e1.signalLine) &&
            r[3].data == OptScalars(e2.histogram) && r[4].data == OptScalars(e2.macdLine) &&
            r[5].data == OptScalars(e2.signalLine) &&
            r[0].kind == BarKind && r[3].kind == BarKind
  {
    var entries := [(k1, Some(e1)), (k2, Some(e2))];
    assert EntrySeries(entries, 0, "1", g, Blue, Gold) == MacdSeries("1", k1, e1, g, Blue, Gold);
    assert EntrySeries(entries, 1, "2", g, Red, Purple) == MacdSeries("2", k2, e2, g, Red, Purple);
  }

  // ---- the numeric key sort of the CCI and RSI panels ----

  /** The comparator `parseInt(a) - parseInt(b)` is positive: both keys
      read as numbers and the first is larger. A key that is not a number
      makes the difference NaN, which the sort treats as equal. */
  predicate SortsAfter(a: string, b: string)
  {
    var x := Decimal.JsParseInt(a);
    var y := Decimal.JsParseInt(b);
    x.Some? && y.Some? && x.value > y.value
  }

  /** Inserting one entry behind every entry that does not sort after it. */
  function Insert<V>(sorted: seq<(string, V)>, e: (string, V)): (r: seq<(string, V)>)
    ensures multiset(r) == multiset(sorted) + multiset{e}
  {
    if sorted == [] || !SortsAfter(sorted[|sorted| - 1].0, e.0) then sorted + [e]
    else
      var n := |sorted| - 1;
      assert sorted == sorted[..n] + [sorted[n]];
      Insert(sorted[..n], e) + [sorted[n]]
  }

  /** `keys.sort((a, b) => parseInt(a) - parseInt(b))` over the entries of
      an object: a stable sort, as the language requires of `sort`. */
  function SortByNumber<V>(s: seq<(string, V)>): (r: seq<(string, V)>)
    ensures multiset(r) == multiset(s)
  {
    if s == [] then []
    else
      var n := |s| - 1;
      assert s == s[..n] + [s[n]];
      Insert(SortByNumber(s[..n]), s[n])
  }

  predicate AllNumeric<V>(s: seq<(string, V)>)
  {
    forall i :: 0 <= i < |s| ==> Decimal.JsParseInt(s[i].0).Some?
  }

  predicate Ascending<V>(s: seq<(string, V)>)
  {
    forall i, j :: 0 <= i < j < |s| ==> !SortsAfter(s[i].0, s[j].0)
  }

  lemma AllNumericMultiset<V>(s: seq<(string, V)>, t: seq<(string, V)>)
    requires multiset(s) == multiset(t) && AllNumeric(s)
    ensures AllNumeric(t)
  {
    forall i | 0 <= i < |t|
      ensures Decimal.JsParseInt(t[i].0).Some?
    {
      assert t[i] in multiset(t);
      assert t[i] in multiset(s);
      var j :| 0 <= j < |s| && s[j] == t[i];
    }
  }

  /** Appending an entry that no earlier entry sorts after keeps the
      order ascending. */
  lemma AppendAscending<V>(s: seq<(string, V)>, x: (string, V))
    requires Ascending(s)
    requires forall i :: 0 <= i < |s| ==> !SortsAfter(s[i].0, x.0)
    ensures Ascending(s + [x])
  {
    var r := s + [x];
    forall i, j | 0 <= i < j < |r|
      ensures !SortsAfter(r[i].0, r[j].0)
    {
      if j < |s| {
        assert r[i] == s[i] && r[j] == s[j];
      } else {
        assert r[i] == s[i] && r[j] == x;
      }
    }
  }

  lemma {:induction false} InsertAscending<V>(sorted: seq<(string, V)>, e: (string, V))
    requires Ascending(sorted) && AllNumeric(sorted) && Decimal.JsParseInt(e.0).Some?
    ensures Ascending(Insert(sorted, e))
  {
    if sorted == [] || !SortsAfter(sorted[|sorted| - 1].0, e.0) {
      forall i | 0 <= i < |sorted|
        ensures !SortsAfter(sorted[i].0, e.0)
      {
        if i < |sorted| - 1 {
          assert !SortsAfter(sorted[i].0, sorted[|sorted| - 1].0);
        }
      }
      AppendAscending(sorted, e);
    } else {
      var n := |sorted| - 1;
      var front := Insert(sorted[..n], e);
      assert Ascending(sorted[..n]) by {
        forall i, j | 0 <= i < j < n
          ensures !SortsAfter(sorted[..n][i].0, sorted[..n][j].0)
        {
          assert sorted[..n][i] == sorted[i] && sorted[..n][j] == sorted[j];
        }
      }
      assert AllNumeric(sorted[..n]) by {
        forall i | 0 <= i < n
          ensures Decimal.JsParseInt(sorted[..n][i].0).Some?
        {
          assert sorted[..n][i] == sorted[i];
        }
      }
      InsertAscending(sorted[..n], e);
      FrontBelowLast(sorted, e);
      AppendAscending(front, sorted[n]);
    }
  }

  /** Every entry of the insertion into the front sorts no later than the
      last entry, when that last entry sorts after the inserted one. */
  lemma FrontBelowLast<V>(sorted: seq<(string, V)>, e: (string, V))
    requires sorted != [] && Ascending(sorted) && SortsAfter(sorted[|sorted| - 1].0, e.0)
    ensures var n := |sorted| - 1;
            forall i :: 0 <= i < |Insert(sorted[..n], e)| ==> !SortsAfter(Insert(sorted[..n], e)[i].0, sorted[n].0)
  {
    var n := |sorted| - 1;
    var front := Insert(sorted[..n], e);
    forall i | 0 <= i < |front|
      ensures !SortsAfter(front[i].0, sorted[n].0)
    {
      assert front[i] in multiset(front);
      if front[i] != e {
        assert front[i] in multiset(sorted[..n]);
        var j :| 0 <= j < n && sorted[..n][j] == front[i];
        assert sorted[j] == front[i];
      }
    }
  }

  /** When every key reads as a number, the sort orders the entries by
      ascending number; it never loses or duplicates an entry. */
  lemma {:induction false} SortAscending<V>(s: seq<(string, V)>)
    requires AllNumeric(s)
    ensures Ascending(SortByNumber(s)) && multiset(SortByNumber(s)) == multiset(s)
  {
    if s != [] {
      var n := |s| - 1;
      assert AllNumeric(s[..n]);
      SortAscending(s[..n]);
      AllNumericMultiset(s[..n], SortByNumber(s[..n]));
      InsertAscending(SortByNumber(s[..n]), s[n]);
    }
  }

  /** Keys written by Go's `%d` always read back as numbers, so their
      panel lines come out in ascending period order. */
  lemma DecimalKeysSortAscending<V>(s: seq<(string, V)>)
    requires forall i :: 0 <= i < |s| ==> exists p :: s[i].0 == Decimal.IntToString(p)
    ensures Ascending(SortByNumber(s)) && AllNumeric(SortByNumber(s))
    ensures forall i, j :: 0 <= i < j < |SortByNumber(s)| ==>
              Decimal.JsParseInt(SortByNumber(s)[i].0).value <= Decimal.JsParseInt(SortByNumber(s)[j].0).value
  {
    forall i | 0 <= i < |s|
      ensures Decimal.JsParseInt(s[i].0).Some?
    {
      var p :| s[i].0 == Decimal.IntToString(p);
      Decimal.JsParseIntOfIntToString(p);
    }
    SortAscending(s);
    AllNumericMultiset(s, SortByNumber(s));
  }

  // ---- the CCI and RSI panels ----

  const CciColors: seq<string> := [Blue, Red, Green]
  const RsiColors: seq<string> := [Blue, Red]

  /** The line of the entry at sorted position `index`: named after its
      1-based position and key, coloured by position modulo the palette. */
  function LineAt(title: string, palette: seq<string>, g: int, index: int, key: string, values: seq<JsNum>): (s: Series)
    requires |palette| > 0 && index >= 0
    ensures s.kind == LineKind && s.axis == Some(g) && s.lineColor == Some(palette[index % |palette|])
    ensures Shows(s, values)
  {
    LineOf(title + Decimal.IntToString(index + 1) + " (" + key + ")", g, Scalars(values), palette[index % |palette|])
  }

  /** The `forEach` over the sorted entries: a line for every value that
      is an array, in sorted order; positions count every key, drawn or
      not. */
  function IndicatorSeriesOf(sorted: Lines, title: string, palette: seq<string>, g: int): (r: seq<Series>)
    requires |palette| > 0
    ensures |r| <= |sorted|
    ensures forall i :: 0 <= i < |r| ==> r[i].axis == Some(g) && r[i].kind == LineKind
  {
    if sorted == [] then []
    else
      var n := |sorted| - 1;
      IndicatorSeriesOf(sorted[..n], title, palette, g) +
      (if sorted[n].1.Some? then [LineAt(title, palette, g, n, sorted[n].0, sorted[n].1.value)] else [])
  }

  /** The panel of an indicator object (None when `data.cci` / `data.rsi` is
      missing). */
  function IndicatorPanelOf(lines: Option<Lines>, title: string, palette: seq<string>, g: int): (r: seq<Series>)
    requires |palette| > 0
    ensures lines.None? ==> r == []
    ensures forall i :: 0 <= i < |r| ==> r[i].axis == Some(g) && r[i].kind == LineKind
  {
    if lines.None? then [] else IndicatorSeriesOf(SortByNumber(lines.value), title, palette, g)
  }

  /** createCCIPanelSeries / createRSIPanelSeries: sort the keys, then push
      one line per array value. */
  method IndicatorPanelSeries(lines: Option<Lines>, title: string, palette: seq<string>, g: int)
      returns (series: seq<Series>)
    requires |palette| > 0
    ensures series == IndicatorPanelOf(lines, title, palette, g)
  {
    series := [];
    if lines.Some? {
      var keys := SortByNumber(lines.value);
      var i := 0;
      while i < |keys|
        invariant 0 <= i <= |keys|
        invariant series == IndicatorSeriesOf(keys[..i], title, palette, g)
      {
        assert keys[..i + 1][..i] == keys[..i];
        if keys[i].1.Some? {
          series := series + [LineAt(title, palette, g, i, keys[i].0, keys[i].1.value)];
        }
        i := i + 1;
      }
      assert keys[..i] == keys;
    }
  }

  /** When every value is an array, line j is the j-th sorted entry,
      coloured palette[j mod palette length] and reversing its array. */
  lemma {:induction false} IndicatorSeriesAllDrawn(sorted: Lines, title: string, palette: seq<string>, g: int)
    requires |palette| > 0
    requires forall i :: 0 <= i < |sorted| ==> sorted[i].1.Some?
    ensures var r := IndicatorSeriesOf(sorted, title, palette, g);
            |r| == |sorted| &&
            forall j :: 0 <= j < |sorted| ==>
              r[j] == LineAt(title, palette, g, j, sorted[j].0, sorted[j].1.value) &&
              r[j].lineColor == Some(palette[j % |palette|]) && Shows(r[j], sorted[j].1.value)
  {
    if sorted != [] {
      var n := |sorted| - 1;
      IndicatorSeriesAllDrawn(sorted[..n], title, palette, g);
    }
  }

  /** A key whose value is null is skipped without moving the palette:
      the next key keeps the colour of its own position. */
  lemma SkippedKeyKeepsColour(k1: string, k2: string, v2: seq<JsNum>, title: string, palette: seq<string>, g: int)
    requires |palette| >= 2
    ensures var r := IndicatorSeriesOf([(k1, None), (k2, Some(v2))], title, palette, g);
            |r| == 1 && r[0].lineColor == Some(palette[1])
  {
    var s: Lines := [(k1, None), (k2, Some(v2))];
    assert s[..1] == [(k1, None)];
    assert s[..1][..0] == [];
  }

  // ---- the price axis of the main panel ----

  /** The largest high of a non-empty list. */
  function MaxHigh(ks: seq<KlineData>): (m: real)
    requires ks != []
    ensures forall i :: 0 <= i < |ks| ==> ks[i].high <= m
    ensures exists i :: 0 <= i < |ks| && ks[i].high == m
  {
    if |ks| == 1 then ks[0].high
    else
      var n := |ks| - 1;
      var m := MaxHigh(ks[..n]);
      assert forall i :: 0 <= i < n ==> ks[..n][i] == ks[i];
      if ks[n].high > m then ks[n].high else m
  }

  /** The smallest low of a non-empty list. */
  function MinLow(ks: seq<KlineData>): (m: real)
    requires ks != []
    ensures forall i :: 0 <= i < |ks| ==> m <= ks[i].low
    ensures exists i :: 0 <= i < |ks| && ks[i].low == m
  {
    if |ks| == 1 then ks[0].low
    else
      var n := |ks| - 1;
      var m := MinLow(ks[..n]);
      assert forall i :: 0 <= i < n ==> ks[..n][i] == ks[i];
      if ks[n].low < m then ks[n].low else m
  }

  /** The padding tier, chosen by range / minLow: 2% of the low below 1%,
      half the range below 5%, 10% of the range otherwise. With a zero
      low the quotient is +Infinity or NaN, and either fails both tests. */
  function Padding(range: real, minLow: real): real
  {
    if minLow != 0.0 && range / minLow < 0.01 then minLow * 0.02
    else if minLow != 0.0 && range / minLow < 0.05 then range * 0.5
    else range * 0.1
  }

  datatype PriceRange = PriceRange(min: real, max: real)

  /** calculatePriceRange over a non-empty list: min = max(0, minLow −
      padding), max = maxHigh + padding. The axis minimum is never
      negative. */
  function PriceRangeOf(ks: seq<KlineData>): (r: PriceRange)
    requires ks != []
    ensures r.min >= 0.0
  {
    var pad := Padding(MaxHigh(ks) - MinLow(ks), MinLow(ks));
    PriceRange(MaxR(0.0, MinLow(ks) - pad), MaxHigh(ks) + pad)
  }

  /** The `forEach` that tracks the extremes (seeded with ±Infinity, which
      the first candle always replaces), then the padding. */
  method CalculatePriceRange(ks: seq<KlineData>) returns (r: PriceRange)
    requires ks != []
    ensures r == PriceRangeOf(ks)
  {
    var maxPrice, minPrice := Extremes(ks);
    var priceRange := maxPrice - minPrice;
    var padding: real;
    if minPrice != 0.0 && priceRange / minPrice < 0.01 {
      padding := minPrice * 0.02;
    } else if minPrice != 0.0 && priceRange / minPrice < 0.05 {
      padding := priceRange * 0.5;
    } else {
      padding := priceRange * 0.1;
    }
    assert padding == Padding(priceRange, minPrice);
    r := PriceRange(MaxR(0.0, minPrice - padding), maxPrice + padding);
  }

  /** The extremes loop of calculatePriceRange. */
  method Extremes(ks: seq<KlineData>) returns (maxPrice: real, minPrice: real)
    requires ks != []
    ensures maxPrice == MaxHigh(ks) && minPrice == MinLow(ks)
  {
    maxPrice := ks[0].high;
    minPrice := ks[0].low;
    var i := 1;
    while i < |ks|
      invariant 1 <= i <= |ks|
      invariant maxPrice == MaxHigh(ks[..i]) && minPrice == MinLow(ks[..i])
    {
      ExtremesStep(ks, i);
      if ks[i].high > maxPrice {
        maxPrice := ks[i].high;
      }
      if ks[i].low < minPrice {
        minPrice := ks[i].low;
      }
      i := i + 1;
    }
    assert ks[..i] == ks;
  }

  /** One more candle moves each extreme only when it beats it. */
  lemma ExtremesStep(ks: seq<KlineData>, i: int)
    requires 1 <= i < |ks|
    ensures MaxHigh(ks[..i + 1]) == if ks[i].high > MaxHigh(ks[..i]) then ks[i].high else MaxHigh(ks[..i])
    ensures MinLow(ks[..i + 1]) == if ks[i].low < MinLow(ks[..i]) then ks[i].low else MinLow(ks[..i])
  {
    assert ks[..i + 1][..i] == ks[..i];
    assert ks[..i + 1][i] == ks[i];
  }

  /** With positive, well-formed candles every candle lies inside the
      axis range. */
  lemma PriceRangeContains(ks: seq<KlineData>)
    requires ks != []
    requires forall i :: 0 <= i < |ks| ==> 0.0 < ks[i].low <= ks[i].high
    ensures var r := PriceRangeOf(ks);
            forall i :: 0 <= i < |ks| ==> r.min <= ks[i].low && ks[i].high <= r.max
  {
    var hi := MaxHigh(ks);
    var lo := MinLow(ks);
    assert lo <= ks[0].low <= ks[0].high <= hi;
    var range := hi - lo;
    if range / lo < 0.01 {
      assert Padding(range, lo) == lo * 0.02;
    }
    assert Padding(range, lo) >= 0.0;
  }

  /** A flat market (range under 1% of the low) still gets an axis at
      least 4% of the low tall, so its candles are not drawn as a line. */
  lemma FlatRangeWidened(ks: seq<KlineData>)
    requires ks != []
    requires forall i :: 0 <= i < |ks| ==> 0.0 < ks[i].low <= ks[i].high
    requires MinLow(ks) > 0.0 && (MaxHigh(ks) - MinLow(ks)) / MinLow(ks) < 0.01
    ensures var r := PriceRangeOf(ks);
            r.max - r.min >= MinLow(ks) * 0.04
  {
    LowBelowHigh(ks);
    FlatRangeOf(ks);
  }

  lemma FlatRangeOf(ks: seq<KlineData>)
    requires ks != []
    requires 0.0 < MinLow(ks) <= MaxHigh(ks) && (MaxHigh(ks) - MinLow(ks)) / MinLow(ks) < 0.01
    ensures var r := PriceRangeOf(ks);
            r.max - r.min >= MinLow(ks) * 0.04
  {
    FlatWidened(MaxHigh(ks), MinLow(ks));
  }

  lemma LowBelowHigh(ks: seq<KlineData>)
    requires ks != []
    requires forall i :: 0 <= i < |ks| ==> ks[i].low <= ks[i].high
    ensures MinLow(ks) <= MaxHigh(ks)
  {
    assert MinLow(ks) <= ks[0].low <= ks[0].high <= MaxHigh(ks);
  }

  lemma FlatWidened(hi: real, lo: real)
    requires 0.0 < lo <= hi && (hi - lo) / lo < 0.01
    ensures var pad := Padding(hi - lo, lo);
            pad == lo * 0.02 && (hi + pad) - MaxR(0.0, lo - pad) >= lo * 0.04
  {
    assert Padding(hi - lo, lo) == lo * 0.02;
    assert lo - lo * 0.02 == lo * 0.98;
  }
}
