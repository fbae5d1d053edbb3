/** CrosshairManager (web/static/chart-manager.js): the pointer probe that
    finds the hovered candle, the dashed line across every panel, and the
    overlay rules that keep the zone bubble. */
module Crosshair {
  import opened Wrappers
  import opened JsMath
  import opened Surface

  /** The probe hits grid g: its converted x is a number and not negative. */
  predicate Hits(fromPixel: FromPixel, g: int, px: real, py: real)
  {
    var x := fromPixel(g, px, py);
    x.Num? && x.v >= 0.0
  }

  /** The first grid from `g` up to `count` that the probe hits, and the
      rounded index it read there. */
  function FirstHitFrom(fromPixel: FromPixel, count: int, px: real, py: real, g: nat): (r: Option<int>)
    decreases count - g
    ensures r.None? <==> forall j :: g <= j < count ==> !Hits(fromPixel, j, px, py)
    ensures r.Some? ==> r.value >= 0
    ensures r.Some? ==>
              exists k :: g <= k < count && Hits(fromPixel, k, px, py) &&
                          (forall j :: g <= j < k ==> !Hits(fromPixel, j, px, py)) &&
                          r.value == JsRound(fromPixel(k, px, py).v)
  {
    if g >= count then None
    else if Hits(fromPixel, g, px, py) then Some(JsRound(fromPixel(g, px, py).v))
    else FirstHitFrom(fromPixel, count, px, py, g + 1)
  }

  function FirstHit(fromPixel: FromPixel, count: int, px: real, py: real): Option<int>
  {
    FirstHitFrom(fromPixel, count, px, py, 0)
  }

  /** The probe reads the grids in order and stops at the first hit. */
  method Probe(fromPixel: FromPixel, count: int, px: real, py: real) returns (found: int)
    ensures FirstHit(fromPixel, count, px, py).None? ==> found == -1
    ensures FirstHit(fromPixel, count, px, py).Some? ==> found == FirstHit(fromPixel, count, px, py).value
  {
    found := -1;
    var gridIndex := 0;
    while gridIndex < count
      invariant 0 <= gridIndex && (count >= 0 ==> gridIndex <= count)
      invariant FirstHit(fromPixel, count, px, py) == FirstHitFrom(fromPixel, count, px, py, gridIndex)
      invariant found == -1
    {
      var pointInGrid := fromPixel(gridIndex, px, py);
      if pointInGrid.Num? && pointInGrid.v >= 0.0 {
        found := JsRound(pointInGrid.v);
        assert FirstHitFrom(fromPixel, count, px, py, gridIndex) == Some(found);
        return;
      }
      assert !Hits(fromPixel, gridIndex, px, py);
      assert FirstHitFrom(fromPixel, count, px, py, gridIndex) == FirstHitFrom(fromPixel, count, px, py, gridIndex + 1);
      gridIndex := gridIndex + 1;
    }
  }

  /** The smallest top and largest bottom over the first `n` panels whose
      grid option exists; None while still at the ±Infinity seed. */
  function MinTop(grids: seq<GridBox>, n: int, h: real): (t: Option<real>)
    ensures t.None? <==> n <= 0 || |grids| == 0
  {
    if n <= 0 || |grids| == 0 then None
    else if n > |grids| then MinTop(grids, |grids|, h)
    else
      var before := MinTop(grids, n - 1, h);
      var top := GridTop(grids[n - 1], h);
      if before.None? || top < before.value then Some(top) else before
  }

  function MaxBottom(grids: seq<GridBox>, n: int, h: real): (b: Option<real>)
    ensures b.None? <==> n <= 0 || |grids| == 0
  {
    if n <= 0 || |grids| == 0 then None
    else if n > |grids| then MaxBottom(grids, |grids|, h)
    else
      var before := MaxBottom(grids, n - 1, h);
      var bottom := GridBottom(grids[n - 1], h);
      if before.None? || bottom > before.value then Some(bottom) else before
  }

  /** MinTop is the smallest top among the grids it reads, and one of them. */
  lemma {:induction false} MinTopIsLeast(grids: seq<GridBox>, n: int, h: real)
    ensures MinTop(grids, n, h).Some? ==>
              (forall g :: 0 <= g < n && g < |grids| ==> MinTop(grids, n, h).value <= GridTop(grids[g], h)) &&
              (exists g :: 0 <= g < n && g < |grids| && MinTop(grids, n, h).value == GridTop(grids[g], h))
  {
    if n <= 0 || |grids| == 0 {
    } else if n > |grids| {
      MinTopIsLeast(grids, |grids|, h);
    } else if n > 1 {
      MinTopIsLeast(grids, n - 1, h);
    } else {
      assert MinTop(grids, n, h).value == GridTop(grids[0], h);
    }
  }

  /** MaxBottom is the largest bottom among the grids it reads, and one of them. */
  lemma {:induction false} MaxBottomIsGreatest(grids: seq<GridBox>, n: int, h: real)
    ensures MaxBottom(grids, n, h).Some? ==>
              (forall g :: 0 <= g < n && g < |grids| ==> GridBottom(grids[g], h) <= MaxBottom(grids, n, h).value) &&
              (exists g :: 0 <= g < n && g < |grids| && MaxBottom(grids, n, h).value == GridBottom(grids[g], h))
  {
    if n <= 0 || |grids| == 0 {
    } else if n > |grids| {
      MaxBottomIsGreatest(grids, |grids|, h);
    } else if n > 1 {
      MaxBottomIsGreatest(grids, n - 1, h);
    } else {
      assert MaxBottom(grids, n, h).value == GridBottom(grids[0], h);
    }
  }

  const CrosshairId: string := "crosshairLine"

  /** The overlays drawCrosshair leaves: the line first, then the earlier
      text overlays in their order. */
  function CrosshairOverlays(previous: seq<Overlay>, x: real, grids: seq<GridBox>, n: int, h: real): (g: seq<Overlay>)
    ensures |g| >= 1 && g[0] == Line(CrosshairId, x, MinTop(grids, n, h), MaxBottom(grids, n, h))
    ensures g[1..] == Texts(previous)
  {
    [Line(CrosshairId, x, MinTop(grids, n, h), MaxBottom(grids, n, h))] + Texts(previous)
  }

  class CrosshairManager {
    const chart: Chart
    var panels: seq<Panel>
    var currentDataIndex: int
    var initialized: bool

    constructor (chart: Chart)
      ensures this.chart == chart && panels == [] && currentDataIndex == -1 && !initialized
    {
      this.chart := chart;
      panels := [];
      currentDataIndex := -1;
      initialized := false;
    }

    /** updatePanels: the handlers are bound the first time panels arrive. */
    method UpdatePanels(panels: seq<Panel>)
      modifies this
      ensures this.panels == panels && currentDataIndex == old(currentDataIndex)
      ensures initialized == (old(initialized) || |panels| > 0)
    {
      this.panels := panels;
      if !initialized && |panels| > 0 {
        initialized := true;
      }
    }

    /** handleMouseMove: with no hit nothing changes; with a hit the index
        is recorded, the line drawn and the tooltip shown at that index. */
    method HandleMouseMove(fromPixel: FromPixel, toPixel: ToPixel, px: real, py: real)
      modifies this, chart
      ensures panels == old(panels) && initialized == old(initialized)
      ensures FirstHit(fromPixel, |panels|, px, py).None? ==> unchanged(this) && unchanged(chart)
      ensures FirstHit(fromPixel, |panels|, px, py).Some? ==>
                var d := FirstHit(fromPixel, |panels|, px, py).value;
                var x := toPixel(0, d as real, 0.0).0;
                currentDataIndex == d && chart.tipShown && chart.tipIndex == d &&
                chart.grids == old(chart.grids) && chart.height == old(chart.height) &&
                chart.series == old(chart.series) && chart.timeAxes == old(chart.timeAxes) &&
                chart.priceRange == old(chart.priceRange) &&
                (x.IsNaN() ==> chart.graphic == old(chart.graphic)) &&
                (!x.IsNaN() ==> chart.graphic == CrosshairOverlays(old(chart.graphic), x.v, chart.grids, |panels|, chart.height))
    {
      var foundDataIndex := Probe(fromPixel, |panels|, px, py);
      if foundDataIndex >= 0 {
        currentDataIndex := foundDataIndex;
        DrawCrosshair(toPixel, foundDataIndex);
        chart.tipShown := true;
        chart.tipIndex := foundDataIndex;
      }
    }

    /** drawCrosshair: nothing when the pixel x of the index is NaN;
        otherwise one line spanning every panel's grid, followed by the
        earlier texts. */
    method DrawCrosshair(toPixel: ToPixel, dataIndex: int)
      modifies chart
      ensures var x := toPixel(0, dataIndex as real, 0.0).0;
              (x.IsNaN() ==> chart.graphic == old(chart.graphic)) &&
              (!x.IsNaN() ==> chart.graphic == CrosshairOverlays(old(chart.graphic), x.v, chart.grids, |panels|, chart.height))
      ensures chart.tipShown == old(chart.tipShown) && chart.tipIndex == old(chart.tipIndex)
      ensures chart.grids == old(chart.grids) && chart.height == old(chart.height) && chart.series == old(chart.series)
      ensures chart.timeAxes == old(chart.timeAxes) && chart.priceRange == old(chart.priceRange)
    {
      var pixel := toPixel(0, dataIndex as real, 0.0);
      if pixel.0.IsNaN() {
        return;
      }
      var minTop, maxBottom := Extent(chart.grids, |panels|, chart.height);
      chart.graphic := [Line(CrosshairId, pixel.0.v, minTop, maxBottom)] + Texts(chart.graphic);
    }

    /** handleMouseOut: the line goes, the texts stay; the tooltip is
        hidden and no index is current. */
    method HandleMouseOut()
      modifies this, chart
      ensures chart.graphic == Texts(old(chart.graphic)) && !chart.tipShown
      ensures currentDataIndex == -1 && panels == old(panels) && initialized == old(initialized)
      ensures chart.grids == old(chart.grids) && chart.height == old(chart.height) && chart.series == old(chart.series)
      ensures chart.timeAxes == old(chart.timeAxes) && chart.priceRange == old(chart.priceRange)
    {
      chart.graphic := Texts(chart.graphic);
      chart.tipShown := false;
      currentDataIndex := -1;
    }
  }

  /** The loop of drawCrosshair over the panels: the smallest grid top and
      the largest grid bottom, skipping panels without a grid option. */
  method Extent(grids: seq<GridBox>, count: int, h: real) returns (minTop: Option<real>, maxBottom: Option<real>)
    ensures minTop == MinTop(grids, count, h) && maxBottom == MaxBottom(grids, count, h)
  {
    minTop, maxBottom := None, None;
    var gridIndex := 0;
    while gridIndex < count
      invariant 0 <= gridIndex && (gridIndex == 0 || gridIndex <= count)
      invariant minTop == MinTop(grids, gridIndex, h)
      invariant maxBottom == MaxBottom(grids, gridIndex, h)
    {
      if gridIndex < |grids| {
        ExtentStep(grids, gridIndex, h);
        var grid := grids[gridIndex];
        var gridTop := GridTop(grid, h);
        var gridBottom := GridBottom(grid, h);
        if minTop.None? || gridTop < minTop.value {
          minTop := Some(gridTop);
        }
        if maxBottom.None? || gridBottom > maxBottom.value {
          maxBottom := Some(gridBottom);
        }
      } else {
        MissingGridsChangeNothing(grids, gridIndex, h);
      }
      gridIndex := gridIndex + 1;
    }
    if count < 0 {
      assert MinTop(grids, count, h).None? && MaxBottom(grids, count, h).None?;
    }
  }

  /** One step of the extent over a panel that has a grid option. */
  lemma ExtentStep(grids: seq<GridBox>, n: nat, h: real)
    requires n < |grids|
    ensures var before, top := MinTop(grids, n, h), GridTop(grids[n], h);
            MinTop(grids, n + 1, h) == if before.None? || top < before.value then Some(top) else before
    ensures var before, bottom := MaxBottom(grids, n, h), GridBottom(grids[n], h);
            MaxBottom(grids, n + 1, h) == if before.None? || bottom > before.value then Some(bottom) else before
  {
  }

  /** A panel without a grid option adds nothing to the extent. */
  lemma MissingGridsChangeNothing(grids: seq<GridBox>, n: int, h: real)
    requires n >= |grids|
    ensures MinTop(grids, n + 1, h) == MinTop(grids, n, h) && MaxBottom(grids, n + 1, h) == MaxBottom(grids, n, h)
  {
  }

  /** The crosshair line spans every panel that has a grid: it starts at or
      above each grid's top and ends at or below each grid's bottom. */
  lemma CrosshairSpansPanels(previous: seq<Overlay>, x: real, grids: seq<GridBox>, n: int, h: real, g: int)
    requires 0 <= g < n && g < |grids|
    ensures var line := CrosshairOverlays(previous, x, grids, n, h)[0];
            line.from.Some? && line.to.Some? &&
            line.from.value <= GridTop(grids[g], h) && GridBottom(grids[g], h) <= line.to.value
  {
    MinTopIsLeast(grids, n, h);
    MaxBottomIsGreatest(grids, n, h);
  }

  /** Moving and then leaving restores the texts that were there: the
      zone bubble and any other text survive a crosshair. */
  lemma MoveThenOutKeepsTexts(previous: seq<Overlay>, x: real, grids: seq<GridBox>, n: int, h: real)
    ensures Texts(CrosshairOverlays(previous, x, grids, n, h)) == Texts(previous)
    ensures LineOverlays(CrosshairOverlays(previous, x, grids, n, h)) ==
            [Line(CrosshairId, x, MinTop(grids, n, h), MaxBottom(grids, n, h))]
  {
    var line := Line(CrosshairId, x, MinTop(grids, n, h), MaxBottom(grids, n, h));
    TextsAppend([line], Texts(previous));
    LinesAppend([line], Texts(previous));
    FiltersSplit(previous);
    assert Texts([line]) == [] by { assert [line][..0] == []; }
    assert LineOverlays([line]) == [line] by { assert [line][..0] == []; }
  }

  /** A second crosshair replaces the first: only one line is ever shown. */
  lemma CrosshairIdempotent(previous: seq<Overlay>, x1: real, x2: real, grids: seq<GridBox>, n: int, h: real)
    ensures CrosshairOverlays(CrosshairOverlays(previous, x1, grids, n, h), x2, grids, n, h) ==
            CrosshairOverlays(previous, x2, grids, n, h)
  {
    MoveThenOutKeepsTexts(previous, x1, grids, n, h);
  }
}
