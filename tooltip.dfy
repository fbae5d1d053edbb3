/** The tooltip (TooltipManager in web/static/chart-manager.js): where the
    box goes, and which rows it shows for a display index. The rows are kept
    as data; the HTML and the number formatting are not modelled. */
module Tooltip {
  import opened Wrappers
  import opened JsMath
  import opened ServiceTypes
  import opened ChartData
  import opened Series
  import Zones
  import Decimal

  // ---- the position rule ----

  datatype Pos = Pos(x: real, y: real)

  /** The `position` callback: 10 px right of and below the pointer, each
      coordinate flipped to the other side of the pointer when the box would
      overflow the view on that side. */
  function Position(x: real, y: real, viewWidth: real, viewHeight: real, boxWidth: real, boxHeight: real): (p: Pos)
    ensures x + 10.0 + boxWidth <= viewWidth ==> p.x == x + 10.0
    ensures x + 10.0 + boxWidth > viewWidth ==> p.x == x - boxWidth - 10.0
    ensures y + 10.0 + boxHeight <= viewHeight ==> p.y == y + 10.0
    ensures y + 10.0 + boxHeight > viewHeight ==> p.y == y - boxHeight - 10.0
  {
    var px := if x + 10.0 + boxWidth > viewWidth then x - boxWidth - 10.0 else x + 10.0;
    var py := if y + 10.0 + boxHeight > viewHeight then y - boxHeight - 10.0 else y + 10.0;
    Pos(px, py)
  }

  /** The box never covers the pointer: it starts right of it or ends left
      of it, by 10 px, and likewise vertically. */
  lemma PositionClearsPointer(x: real, y: real, vw: real, vh: real, w: real, h: real)
    requires w >= 0.0 && h >= 0.0
    ensures var p := Position(x, y, vw, vh, w, h);
            (p.x >= x + 10.0 || p.x + w <= x - 10.0) && (p.y >= y + 10.0 || p.y + h <= y - 10.0)
  {
  }

  /** With the pointer inside the view and room for the box on at least
      one side, the box lies inside the view horizontally. */
  lemma PositionInView(x: real, vw: real, w: real, y: real, vh: real, h: real)
    requires 0.0 <= x <= vw && w >= 0.0
    requires x + 10.0 + w <= vw || (w + 10.0 <= x && x <= vw + 10.0)
    ensures var p := Position(x, y, vw, vh, w, h);
            0.0 <= p.x && p.x + w <= vw
  {
  }

  // ---- the rows ----

  /** One tooltip row: series name, the value at the index, and colour. */
  datatype Row = Row(name: string, value: Point, color: string)

  /** `(xAxisIndex ?? 0)`, with anything outside 0..3 put in group 0. */
  function GroupOf(s: Series): (g: int)
    ensures 0 <= g <= 3
    ensures s.axis.Some? && 0 <= s.axis.value <= 3 ==> g == s.axis.value
  {
    var raw := if s.axis.None? then 0 else s.axis.value;
    if 0 <= raw <= 3 then raw else 0
  }

  /** The series has something to show at display index d: the index is
      inside its data and the value is a candle or a number other than NaN
      (undefined included). */
  predicate ShowsAt(s: Series, d: int)
  {
    0 <= d < |s.data| && (s.data[d].Ohlc? || s.data[d].v.Num?)
  }

  /** A truthy colour string. */
  predicate HasColor(c: Option<string>)
  {
    c.Some? && c.value != ""
  }

  /** `s.name || 'Series ' + idx`, and the colour from `lineStyle`, then
      `itemStyle`, then grey. */
  function RowOf(s: Series, idx: nat, d: int): (r: Row)
    requires ShowsAt(s, d)
    ensures r.value == s.data[d]
    ensures s.name != "" ==> r.name == s.name
    ensures s.name == "" ==> r.name == "Series " + Decimal.IntToString(idx)
    ensures HasColor(s.lineColor) ==> r.color == s.lineColor.value
    ensures !HasColor(s.lineColor) && HasColor(s.itemColor) ==> r.color == s.itemColor.value
    ensures !HasColor(s.lineColor) && !HasColor(s.itemColor) ==> r.color == Grey
  {
    var name := if s.name != "" then s.name else "Series " + Decimal.IntToString(idx);
    var color := if HasColor(s.lineColor) then s.lineColor.value
                 else if HasColor(s.itemColor) then s.itemColor.value else Grey;
    Row(name, s.data[d], color)
  }

  predicate InGroup(s: Series, d: int, g: int)
  {
    ShowsAt(s, d) && GroupOf(s) == g
  }

  /** The rows of group g, in series order. */
  function RowsOf(series: seq<Series>, d: int, g: int): (rows: seq<Row>)
    ensures |rows| <= |series|
  {
    if series == [] then []
    else
      var n := |series| - 1;
      RowsOf(series[..n], d, g) + (if InGroup(series[n], d, g) then [RowOf(series[n], n, d)] else [])
  }

  /** A row of group g is exactly the row of a series that shows a value
      at d and belongs to g: both directions. */
  lemma {:induction false} RowsOfExactly(series: seq<Series>, d: int, g: int)
    ensures forall j :: 0 <= j < |series| && InGroup(series[j], d, g) ==> RowOf(series[j], j, d) in RowsOf(series, d, g)
    ensures forall r :: r in RowsOf(series, d, g) ==>
              exists j :: 0 <= j < |series| && InGroup(series[j], d, g) && r == RowOf(series[j], j, d)
  {
    if series != [] {
      var n := |series| - 1;
      var front := series[..n];
      RowsOfExactly(front, d, g);
      forall j | 0 <= j < n
        ensures series[j] == front[j]
      {
      }
      forall r | r in RowsOf(series, d, g)
        ensures exists j :: 0 <= j < |series| && InGroup(series[j], d, g) && r == RowOf(series[j], j, d)
      {
        if r in RowsOf(front, d, g) {
          var j :| 0 <= j < |front| && InGroup(front[j], d, g) && r == RowOf(front[j], j, d);
          assert series[j] == front[j];
        } else {
          assert InGroup(series[n], d, g) && r == RowOf(series[n], n, d);
        }
      }
    }
  }

  /** Every series that shows a value lands in exactly one group, so the
      four groups together hold one row per such series. */
  lemma {:induction false} RowsPartition(series: seq<Series>, d: int)
    ensures |RowsOf(series, d, 0)| + |RowsOf(series, d, 1)| + |RowsOf(series, d, 2)| + |RowsOf(series, d, 3)|
            == |ShowingAt(series, d)|
  {
    if series != [] {
      RowsPartition(series[..|series| - 1], d);
    }
  }

  /** The positions of the series that show a value at d. */
  function ShowingAt(series: seq<Series>, d: int): seq<nat>
  {
    if series == [] then []
    else
      var n := |series| - 1;
      ShowingAt(series[..n], d) + (if ShowsAt(series[n], d) then [n] else [])
  }

  /** The zone section under the main panel's rows. */
  datatype ZoneLine =
    | NoZoneLine
    | ZoneLine(bollZone: int, envZone: int)
    /** `klines[originalIndex]` is past the end of the list, and reading its
        close throws: nothing is shown. */
    | KlineMissing

  /** The shown tooltip: the rows of the four groups and the zone section. */
  datatype Tip = Tip(dataIndex: int, groups: seq<seq<Row>>, zone: ZoneLine)

  /** The zone section at display index d: only when the main group has rows
      and the snapshot has both band objects, and only when the source index
      len − 1 − d falls inside the Bollinger upper line. The price is the
      live price at the newest candle when it is truthy, otherwise the
      candle's close. */
  function ZoneLineOf(d: int, mainRows: bool, data: Option<Snapshot>): (z: ZoneLine)
    ensures z.ZoneLine? ==> -10 <= z.bollZone <= 10 && -10 <= z.envZone <= 10
    ensures z.ZoneLine? || z.KlineMissing? ==>
              mainRows && data.Some? && data.value.bollinger.Some? && data.value.envelope.Some? &&
              0 <= |data.value.klines| - 1 - d < |data.value.bollinger.value.upper|
  {
    if !mainRows || data.None? || data.value.bollinger.None? || data.value.envelope.None? then NoZoneLine
    else
      var s := data.value;
      var oi := |s.klines| - 1 - d;
      if !(0 <= oi < |s.bollinger.value.upper|) then NoZoneLine
      else if !(d == |s.klines| - 1 && s.price.Truthy()) && oi >= |s.klines| then KlineMissing
      else
        var price := if d == |s.klines| - 1 && s.price.Truthy() then s.price else Num(s.klines[oi].close);
        var b := s.bollinger.value;
        var e := s.envelope.value;
        ZoneLine(Zones.JsZone(price, At(b.middle, oi), At(b.upper, oi), At(b.lower, oi)),
                 Zones.JsZone(price, At(e.middle, oi), At(e.upper, oi), At(e.lower, oi)))
  }

  /** The rows of the four groups, in order. */
  function GroupsOf(series: seq<Series>, d: int): (gs: seq<seq<Row>>)
    ensures |gs| == 4 && forall g :: 0 <= g < 4 ==> gs[g] == RowsOf(series, d, g)
  {
    [RowsOf(series, d, 0), RowsOf(series, d, 1), RowsOf(series, d, 2), RowsOf(series, d, 3)]
  }

  /** formatTooltip on the chart's series, the global `currentChartData`
      and the hovered index (None when `params` is empty, which shows an
      empty string). */
  method FormatTooltip(params: Option<int>, series: seq<Series>, current: Option<Snapshot>) returns (tip: Option<Tip>)
    ensures params.None? <==> tip.None?
    ensures params.Some? ==>
              tip.value.dataIndex == params.value && tip.value.groups == GroupsOf(series, params.value) &&
              tip.value.zone == ZoneLineOf(params.value, RowsOf(series, params.value, 0) != [], current)
  {
    if params.None? {
      return None;
    }
    var dataIndex := params.value;
    var gridData: seq<seq<Row>> := [[], [], [], []];
    var idx := 0;
    while idx < |series|
      invariant 0 <= idx <= |series|
      invariant |gridData| == 4
      invariant forall g :: 0 <= g < 4 ==> gridData[g] == RowsOf(series[..idx], dataIndex, g)
    {
      var s := series[idx];
      assert series[..idx + 1][..idx] == series[..idx];
      if 0 <= dataIndex < |s.data| {
        var value := s.data[dataIndex];
        if value.Ohlc? || value.v.Num? {
          var color := if HasColor(s.lineColor) then s.lineColor.value
                       else if HasColor(s.itemColor) then s.itemColor.value else Grey;
          var validGridIdx := GroupOf(s);
          var name := if s.name != "" then s.name else "Series " + Decimal.IntToString(idx);
          gridData := gridData[validGridIdx := gridData[validGridIdx] + [Row(name, value, color)]];
        }
      }
      idx := idx + 1;
    }
    assert series[..idx] == series;
    var zone := ZoneLineOf(dataIndex, gridData[0] != [], current);
    tip := Some(Tip(dataIndex, gridData, zone));
  }

  /** For a snapshot whose bands are as long as its kline list, the zone
      section never hits the missing-kline case, and at the newest candle it
      uses the live price (when truthy) against index 0 of each band. */
  lemma ZoneLineAligned(d: int, data: Snapshot)
    requires data.bollinger.Some? && data.envelope.Some?
    requires |data.bollinger.value.upper| == |data.klines|
    ensures !ZoneLineOf(d, true, Some(data)).KlineMissing?
    ensures 0 <= d < |data.klines| <==> ZoneLineOf(d, true, Some(data)).ZoneLine?
    ensures |data.klines| > 0 && d == |data.klines| - 1 && data.price.Truthy() ==>
              var b := data.bollinger.value;
              var e := data.envelope.value;
              ZoneLineOf(d, true, Some(data)) ==
                ZoneLine(Zones.JsZone(data.price, At(b.middle, 0), At(b.upper, 0), At(b.lower, 0)),
                         Zones.JsZone(data.price, At(e.middle, 0), At(e.upper, 0), At(e.lower, 0)))
  {
  }

  /** TooltipManager: it keeps the snapshot of the last update. */
  class TooltipManager {
    var currentData: Option<Snapshot>

    constructor ()
      ensures currentData.None?
    {
      currentData := None;
    }

    method UpdateData(data: Snapshot)
      modifies this
      ensures currentData == Some(data)
    {
      currentData := Some(data);
    }
  }
}
