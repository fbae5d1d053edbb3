/** The original single-file page (web/static/app.js): four fixed grid
    bands, one update that builds every series inline, and a crosshair that
    draws one line per band and replaces every overlay. */
module LegacyChart {
  import opened Wrappers
  import opened JsMath
  import opened ChartData
  import opened Series
  import opened Surface
  import ChartLayout
  import Crosshair
  import IndexModel

  /** The grid option of initUnifiedChart: main 1% + 43%, MACD 45% + 17%,
      CCI 63% + 17%, RSI from 81% down to 8% above the foot. */
  function LegacyGrids(): (g: seq<GridBox>)
    ensures |g| == 4
  {
    [GridBox(Pct(1.0), Some(Pct(43.0)), None),
     GridBox(Pct(45.0), Some(Pct(17.0)), None),
     GridBox(Pct(63.0), Some(Pct(17.0)), None),
     GridBox(Pct(81.0), None, Some(Pct(8.0)))]
  }

  /** On a chart of positive height the four bands are stacked top to
      bottom without overlapping, and all of them lie between 1% and 92%
      of the height. */
  lemma LegacyBandsDisjoint(h: real)
    requires h > 0.0
    ensures var g := LegacyGrids();
            forall k :: 0 <= k < 3 ==> GridBottom(g[k], h) < GridTop(g[k + 1], h)
    ensures var g := LegacyGrids();
            forall k :: 0 <= k < 4 ==>
              h * 0.01 <= GridTop(g[k], h) < GridBottom(g[k], h) <= h * 0.92
    ensures GridTop(LegacyGrids()[0], h) == h * 0.01 && GridBottom(LegacyGrids()[3], h) == h * 0.92
  {
    var g := LegacyGrids();
    assert GridTop(g[0], h) == h * 0.01 && GridBottom(g[0], h) == h * 0.44;
    assert GridTop(g[1], h) == h * 0.45 && GridBottom(g[1], h) == h * 0.62;
    assert GridTop(g[2], h) == h * 0.63 && GridBottom(g[2], h) == h * 0.80;
    assert GridTop(g[3], h) == h * 0.81 && GridBottom(g[3], h) == h * 0.92;
  }

  /** The series updateUnifiedChart builds, in order: main on grid 0,
      MACD on 1, CCI on 2, RSI on 3. */
  function LegacySeries(s: Snapshot): seq<Series>
  {
    MainPanelSeries(s, 0) + MacdPanelSeries(s.macd, 1) +
    IndicatorPanelOf(s.cci, "CCI", CciColors, 2) + IndicatorPanelOf(s.rsi, "RSI", RsiColors, 3)
  }

  /** The legacy page and the refactored page draw the same series for the
      same snapshot. */
  lemma LegacyMatchesRefactored(s: Snapshot)
    ensures LegacySeries(s) == ChartLayout.AllSeries(ChartLayout.DefaultPanels(), s, 4)
  {
    var ps := ChartLayout.DefaultPanels();
    assert ps[0].factory == Some(Surface.MainFactory) && ps[1].factory == Some(Surface.MacdFactory);
    assert ps[2].factory == Some(Surface.CciFactory) && ps[3].factory == Some(Surface.RsiFactory);
    FourPanels(ps, s);
  }

  /** Any four panels with the main, MACD, CCI and RSI factories in that
      order draw the legacy series. */
  lemma FourPanels(ps: seq<Panel>, s: Snapshot)
    requires |ps| == 4
    requires ps[0].factory == Some(Surface.MainFactory) && ps[1].factory == Some(Surface.MacdFactory)
    requires ps[2].factory == Some(Surface.CciFactory) && ps[3].factory == Some(Surface.RsiFactory)
    ensures LegacySeries(s) == ChartLayout.AllSeries(ps, s, 4)
  {
    ChartLayout.AllSeriesOfFour(ps, s);
  }

  /** app.js calculatePriceRange: {0, 0} for no candles, otherwise the same
      padded range as the refactored page. */
  method LegacyCalculatePriceRange(ks: seq<ServiceTypes.KlineData>) returns (r: PriceRange)
    ensures ks == [] ==> r == PriceRange(0.0, 0.0)
    ensures ks != [] ==> r == PriceRangeOf(ks) && r.min >= 0.0
  {
    if ks == [] {
      return PriceRange(0.0, 0.0);
    }
    r := CalculatePriceRange(ks);
  }

  /** Band g converts data index d to a pixel x. */
  predicate Converts(toPixel: ToPixel, g: int, d: int)
  {
    toPixel(g, d as real, 0.0).0.Num?
  }

  /** The lines of the first n bands at data index d: one per band whose
      pixel x converts, from the band's top to its bottom. */
  function LegacyLines(toPixel: ToPixel, grids: seq<GridBox>, d: int, h: real, n: nat): (r: seq<Overlay>)
    requires n <= |grids|
    ensures |r| <= n && forall i :: 0 <= i < |r| ==> r[i].Line?
  {
    if n == 0 then []
    else
      var front := LegacyLines(toPixel, grids, d, h, n - 1);
      var x := toPixel(n - 1, d as real, 0.0).0;
      front + (if !Converts(toPixel, n - 1, d) then [] else [Line("", x.v, Some(GridTop(grids[n - 1], h)), Some(GridBottom(grids[n - 1], h)))])
  }

  /** When every band converts, there is exactly one line per band, each
      spanning its own band only. */
  lemma {:induction false} LegacyLinesPerBand(toPixel: ToPixel, grids: seq<GridBox>, d: int, h: real, n: nat)
    requires n <= |grids|
    requires forall g :: 0 <= g < n ==> Converts(toPixel, g, d)
    ensures var r := LegacyLines(toPixel, grids, d, h, n);
            |r| == n &&
            forall g :: 0 <= g < n && Converts(toPixel, g, d) ==>
              r[g] == Line("", toPixel(g, d as real, 0.0).0.v, Some(GridTop(grids[g], h)), Some(GridBottom(grids[g], h)))
  {
    if n > 0 {
      LegacyLinesPerBand(toPixel, grids, d, h, n - 1);
      var front := LegacyLines(toPixel, grids, d, h, n - 1);
      var x := toPixel(n - 1, d as real, 0.0).0;
      assert Converts(toPixel, n - 1, d);
      assert LegacyLines(toPixel, grids, d, h, n) ==
             front + [Line("", x.v, Some(GridTop(grids[n - 1], h)), Some(GridBottom(grids[n - 1], h)))];
    }
  }

  /** The legacy page's overlays are lines only: a move drops any text. */
  lemma LegacyMoveDropsTexts(toPixel: ToPixel, grids: seq<GridBox>, d: int, h: real, n: nat)
    requires n <= |grids|
    ensures Texts(LegacyLines(toPixel, grids, d, h, n)) == []
  {
    var r := LegacyLines(toPixel, grids, d, h, n);
    FiltersSplit(r);
    assert LineOverlays(r) == r by {
      LineOverlaysKeepsLines(r);
    }
  }

  /** A list of lines passes the line filter unchanged. */
  lemma {:induction false} LineOverlaysKeepsLines(r: seq<Overlay>)
    requires forall i :: 0 <= i < |r| ==> r[i].Line?
    ensures LineOverlays(r) == r
  {
    if r != [] {
      var n := |r| - 1;
      LineOverlaysKeepsLines(r[..n]);
      assert r[..n] + [r[n]] == r;
    }
  }

  /** The chart of the legacy page. */
  class LegacyPage {
    const chart: Chart

    predicate Valid()
      reads this, chart
    {
      chart.grids == LegacyGrids()
    }

    /** initUnifiedChart. */
    constructor (chart: Chart)
      modifies chart
      ensures Valid() && this.chart == chart && chart.series == [] && chart.graphic == old(chart.graphic)
    {
      this.chart := chart;
      new;
      chart.grids := LegacyGrids();
      chart.series := [];
    }

    /** updateUnifiedChart: a missing or empty snapshot changes nothing;
        otherwise the four panels' series, the same reversed time axis on
        the four x-axes, and the padded price range on the main y-axis. */
    method UpdateUnifiedChart(data: Option<Snapshot>)
      requires Valid()
      modifies chart
      ensures Valid()
      ensures data.None? || data.value.klines == [] ==> unchanged(chart)
      ensures data.Some? && data.value.klines != [] ==>
                var s := data.value;
                chart.series == LegacySeries(s) &&
                chart.timeAxes == [TimeAxis(s.klines), TimeAxis(s.klines), TimeAxis(s.klines), TimeAxis(s.klines)] &&
                chart.priceRange == Some(PriceRangeOf(IndexModel.Reverse(s.klines))) &&
                chart.graphic == old(chart.graphic) && chart.tipShown == old(chart.tipShown)
    {
      if data.None? || data.value.klines == [] {
        return;
      }
      var s := data.value;
      var timeAxisData := TimeAxis(s.klines);
      var klines := IndexModel.Reverse(s.klines);
      var series := MainPanelSeries(s, 0);
      var priceRange := LegacyCalculatePriceRange(klines);
      series := series + MacdPanelSeries(s.macd, 1);
      var cci := IndicatorPanelSeries(s.cci, "CCI", CciColors, 2);
      series := series + cci;
      var rsi := IndicatorPanelSeries(s.rsi, "RSI", RsiColors, 3);
      series := series + rsi;
      chart.timeAxes := [timeAxisData, timeAxisData, timeAxisData, timeAxisData];
      chart.priceRange := Some(priceRange);
      chart.series := series;
    }

    /** The mousemove handler of syncChartsCrosshair: probe the four bands;
        on a hit, replace every overlay with one line per converting band
        and show the tooltip at the index. */
    method MouseMove(fromPixel: FromPixel, toPixel: ToPixel, px: real, py: real)
      requires Valid()
      modifies chart
      ensures Valid()
      ensures Crosshair.FirstHit(fromPixel, 4, px, py).None? ==> unchanged(chart)
      ensures Crosshair.FirstHit(fromPixel, 4, px, py).Some? ==>
                var d := Crosshair.FirstHit(fromPixel, 4, px, py).value;
                chart.graphic == LegacyLines(toPixel, LegacyGrids(), d, chart.height, 4) &&
                chart.tipShown && chart.tipIndex == d &&
                chart.series == old(chart.series) && chart.timeAxes == old(chart.timeAxes) &&
                chart.priceRange == old(chart.priceRange) && chart.height == old(chart.height)
    {
      var foundDataIndex := Crosshair.Probe(fromPixel, 4, px, py);
      if foundDataIndex >= 0 {
        var graphics: seq<Overlay> := [];
        var gridIndex := 0;
        while gridIndex < 4
          invariant 0 <= gridIndex <= 4
          invariant graphics == LegacyLines(toPixel, chart.grids, foundDataIndex, chart.height, gridIndex)
        {
          var pixelPoint := toPixel(gridIndex, foundDataIndex as real, 0.0);
          if !pixelPoint.0.IsNaN() {
            var grid := chart.grids[gridIndex];
            var gridTop := GridTop(grid, chart.height);
            var gridBottom := GridBottom(grid, chart.height);
            graphics := graphics + [Line("", pixelPoint.0.v, Some(gridTop), Some(gridBottom))];
          }
          gridIndex := gridIndex + 1;
        }
        chart.graphic := graphics;
        chart.tipShown := true;
        chart.tipIndex := foundDataIndex;
      }
    }

    /** The mouseout handler: no overlays, no tooltip. */
    method MouseOut()
      modifies chart
      ensures chart.graphic == [] && !chart.tipShown
      ensures chart.grids == old(chart.grids) && chart.series == old(chart.series)
      ensures chart.timeAxes == old(chart.timeAxes) && chart.priceRange == old(chart.priceRange)
    {
      chart.graphic := [];
      chart.tipShown := false;
    }
  }
}
