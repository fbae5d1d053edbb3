/** ChartManager (web/static/chart-manager.js): the stacked panel layout
    and the update that fills every panel from one snapshot. */
module ChartLayout {
  import opened Wrappers
  import opened JsMath
  import opened ChartData
  import opened Series
  import opened Surface
  import Crosshair
  import Tooltip

  const PanelGap: int := 20

  /** `container ? container.offsetHeight : 800`. */
  function ChartHeight(container: Option<real>): (h: real)
    ensures container.None? ==> h == 800.0
    ensures container.Some? ==> h == container.value
  {
    if container.Some? then container.value else 800.0
  }

  /** A panel's height: its share of the chart, rounded. */
  function PanelHeight(h: real, p: Panel): int
  {
    JsRound(h * p.heightPercent)
  }

  /** The top of panel k: a 1% margin, then every earlier panel's height
      and a 20 px gap after each. */
  function TopOf(h: real, panels: seq<Panel>, k: nat): int
    requires k <= |panels|
  {
    if k == 0 then JsRound(h * 0.01)
    else TopOf(h, panels, k - 1) + PanelHeight(h, panels[k - 1]) + PanelGap
  }

  /** A grid option: `top` and `height` in pixels, `bottom` only on the
      last panel. */
  datatype Grid = Grid(id: string, top: int, height: int, bottom: Option<int>)

  /** An x-axis: its grid, and whether its line, labels and ticks show. */
  datatype XAxis = XAxis(gridIndex: int, showAxis: bool)

  /** A y-axis: its grid, and whether its split lines show. */
  datatype YAxis = YAxis(gridIndex: int, splitLines: bool)

  datatype Layout = Layout(grids: seq<Grid>, xAxes: seq<XAxis>, yAxes: seq<YAxis>)

  function GridAt(h: real, panels: seq<Panel>, k: nat): Grid
    requires k < |panels|
  {
    Grid(panels[k].id, TopOf(h, panels, k), PanelHeight(h, panels[k]),
         if k == |panels| - 1 then Some(JsRound(h * 0.08)) else None)
  }

  /** One grid, x-axis and y-axis per panel, each pointing at the panel's
      position; only the last panel has a bottom margin and a visible axis. */
  predicate IsLayoutOf(l: Layout, h: real, panels: seq<Panel>, showGridLines: bool)
  {
    |l.grids| == |panels| && |l.xAxes| == |panels| && |l.yAxes| == |panels| &&
    forall k :: 0 <= k < |panels| ==>
      l.grids[k] == GridAt(h, panels, k) &&
      l.xAxes[k] == XAxis(k, k == |panels| - 1) && l.yAxes[k] == YAxis(k, showGridLines)
  }

  /** calculateGridConfig for a chart of height h. */
  method CalculateGridConfig(h: real, panels: seq<Panel>, showGridLines: bool) returns (l: Layout)
    ensures IsLayoutOf(l, h, panels, showGridLines)
  {
    var grids: seq<Grid> := [];
    var xAxes: seq<XAxis> := [];
    var yAxes: seq<YAxis> := [];
    var currentTop := JsRound(h * 0.01);
    var index := 0;
    while index < |panels|
      invariant 0 <= index <= |panels|
      invariant |grids| == index && |xAxes| == index && |yAxes| == index
      invariant currentTop == TopOf(h, panels, index)
      invariant forall k :: 0 <= k < index ==>
                  grids[k] == GridAt(h, panels, k) &&
                  xAxes[k] == XAxis(k, k == |panels| - 1) && yAxes[k] == YAxis(k, showGridLines)
    {
      var height := JsRound(h * panels[index].heightPercent);
      var bottom := if index == |panels| - 1 then Some(JsRound(h * 0.08)) else None;
      grids := grids + [Grid(panels[index].id, currentTop, height, bottom)];
      var isLastPanel := index == |panels| - 1;
      xAxes := xAxes + [XAxis(index, isLastPanel)];
      yAxes := yAxes + [YAxis(index, showGridLines)];
      currentTop := currentTop + height + PanelGap;
      index := index + 1;
    }
    l := Layout(grids, xAxes, yAxes);
  }

  /** The grid options as the crosshair reads them back. */
  function BoxOf(g: Grid): GridBox
  {
    GridBox(Px(g.top as real), Some(Px(g.height as real)), if g.bottom.None? then None else Some(Px(g.bottom.value as real)))
  }

  function Boxes(gs: seq<Grid>): (r: seq<GridBox>)
    ensures |r| == |gs| && forall k :: 0 <= k < |gs| ==> r[k] == BoxOf(gs[k])
  {
    seq(|gs|, k requires 0 <= k < |gs| => BoxOf(gs[k]))
  }

  /** With non-negative panel heights the tops strictly increase, and
      between the foot of one panel and the top of any later one there are
      at least the 20 px of a gap. */
  lemma {:induction false} TopsIncrease(h: real, panels: seq<Panel>, j: nat, k: nat)
    requires j < k <= |panels|
    requires forall i :: 0 <= i < |panels| ==> PanelHeight(h, panels[i]) >= 0
    ensures TopOf(h, panels, j) + PanelHeight(h, panels[j]) + PanelGap <= TopOf(h, panels, k)
    ensures TopOf(h, panels, j) < TopOf(h, panels, k)
  {
    if k > j + 1 {
      TopsIncrease(h, panels, j, k - 1);
    }
  }

  /** The crosshair over this layout runs from the first panel's top to the
      last panel's foot (top + height): the last panel's pixel `bottom` is
      not what bounds it. */
  lemma {:induction false} CrosshairOverLayout(h: real, panels: seq<Panel>, l: Layout, showGridLines: bool, m: nat)
    requires IsLayoutOf(l, h, panels, showGridLines)
    requires 1 <= m <= |panels|
    requires forall i :: 0 <= i < |panels| ==> PanelHeight(h, panels[i]) >= 1
    ensures Crosshair.MinTop(Boxes(l.grids), m, h) == Some(TopOf(h, panels, 0) as real)
    ensures Crosshair.MaxBottom(Boxes(l.grids), m, h) ==
            Some((TopOf(h, panels, m - 1) + PanelHeight(h, panels[m - 1])) as real)
  {
    var boxes := Boxes(l.grids);
    var g := boxes[m - 1];
    assert g == BoxOf(GridAt(h, panels, m - 1));
    assert GridTop(g, h) == TopOf(h, panels, m - 1) as real;
    assert GridBottom(g, h) == (TopOf(h, panels, m - 1) + PanelHeight(h, panels[m - 1])) as real;
    if m > 1 {
      CrosshairOverLayout(h, panels, l, showGridLines, m - 1);
      TopsIncrease(h, panels, 0, m - 1);
      assert TopOf(h, panels, m - 1) == TopOf(h, panels, m - 2) + PanelHeight(h, panels[m - 2]) + PanelGap;
    }
  }

  /** The panels the refactored page adds: main, MACD, CCI and RSI with
      45%, 20%, 15% and 15% of the height. */
  function DefaultPanels(): (ps: seq<Panel>)
    ensures |ps| == 4
  {
    [PanelOf(PanelConfig("main", "主看板", Num(0.45), Some(MainFactory)), 0),
     PanelOf(PanelConfig("macd", "MACD", Num(0.20), Some(MacdFactory)), 1),
     PanelOf(PanelConfig("cci", "CCI", Num(0.15), Some(CciFactory)), 2),
     PanelOf(PanelConfig("rsi", "RSI", Num(0.15), Some(RsiFactory)), 3)]
  }

  /** On the default 800 px chart the panels sit at 8, 388, 568 and 708 px
      with heights 360, 160, 120 and 120, and the last one's bottom margin
      is 64 px. The RSI panel then reaches 828 px, past the chart's foot:
      the shares and gaps add up to more than the height. */
  lemma DefaultLayout()
    ensures var ps := DefaultPanels();
            TopOf(800.0, ps, 0) == 8 && TopOf(800.0, ps, 1) == 388 &&
            TopOf(800.0, ps, 2) == 568 && TopOf(800.0, ps, 3) == 708 &&
            PanelHeight(800.0, ps[0]) == 360 && PanelHeight(800.0, ps[1]) == 160 &&
            PanelHeight(800.0, ps[2]) == 120 && PanelHeight(800.0, ps[3]) == 120 &&
            GridAt(800.0, ps, 3).bottom == Some(64) &&
            TopOf(800.0, ps, 3) + PanelHeight(800.0, ps[3]) == 828
  {
    var ps := DefaultPanels();
    assert ps[0].heightPercent == 0.45 && ps[1].heightPercent == 0.20;
    assert ps[2].heightPercent == 0.15 && ps[3].heightPercent == 0.15;
    assert JsRound(800.0 * 0.01) == 8;
    assert JsRound(800.0 * 0.45) == 360;
    assert JsRound(800.0 * 0.20) == 160;
    assert JsRound(800.0 * 0.15) == 120;
    assert JsRound(800.0 * 0.08) == 64;
  }

  /** All series of the first n panels, each made with the panel's
      position as its grid index. */
  function AllSeries(panels: seq<Panel>, data: Snapshot, n: nat): (r: seq<Series>)
    requires n <= |panels|
    ensures forall i :: 0 <= i < |r| ==> r[i].axis.Some? && 0 <= r[i].axis.value < n
  {
    if n == 0 then [] else AllSeries(panels, data, n - 1) + PanelSeriesOf(panels[n - 1], data, n - 1)
  }

  /** The loop of updateData over the panels: each panel's series in
      order, and one copy of the reversed time axis per panel. */
  lemma AllSeriesStep(panels: seq<Panel>, data: Snapshot, n: nat)
    requires n < |panels|
    ensures AllSeries(panels, data, n + 1) == AllSeries(panels, data, n) + PanelSeriesOf(panels[n], data, n)
  {
  }

  /** Four panels draw each panel's series in turn. */
  lemma AllSeriesOfFour(panels: seq<Panel>, data: Snapshot)
    requires |panels| == 4
    ensures AllSeries(panels, data, 4) ==
            PanelSeriesOf(panels[0], data, 0) + PanelSeriesOf(panels[1], data, 1) +
            PanelSeriesOf(panels[2], data, 2) + PanelSeriesOf(panels[3], data, 3)
  {
    var p0, p1 := PanelSeriesOf(panels[0], data, 0), PanelSeriesOf(panels[1], data, 1);
    var p2, p3 := PanelSeriesOf(panels[2], data, 2), PanelSeriesOf(panels[3], data, 3);
    assert AllSeries(panels, data, 1) == p0 by {
      AllSeriesStep(panels, data, 0);
      assert [] + p0 == p0;
    }
    AllSeriesStep(panels, data, 1);
    AllSeriesStep(panels, data, 2);
    AllSeriesStep(panels, data, 3);
  }

  method PanelsData(panels: seq<Panel>, data: Snapshot) returns (series: seq<Series>, xAxisData: seq<seq<TimeLabel>>)
    ensures series == AllSeries(panels, data, |panels|)
    ensures |xAxisData| == |panels| && forall k :: 0 <= k < |panels| ==> xAxisData[k] == TimeAxis(data.klines)
  {
    var timeAxisData := TimeAxis(data.klines);
    series := [];
    xAxisData := [];
    var index := 0;
    while index < |panels|
      invariant 0 <= index <= |panels|
      invariant series == AllSeries(panels, data, index)
      invariant |xAxisData| == index && forall k :: 0 <= k < index ==> xAxisData[k] == timeAxisData
    {
      xAxisData := xAxisData + [timeAxisData];
      var panelSeries := CreateSeries(panels[index], data, index);
      AllSeriesStep(panels, data, index);
      series := series + panelSeries;
      index := index + 1;
    }
  }

  class ChartManager {
    var panels: seq<Panel>
    var showGridLines: bool
    var currentData: Option<Snapshot>
    var container: Option<real>
    var layout: Layout
    const chart: Chart
    const crosshair: Crosshair.CrosshairManager
    const tooltip: Tooltip.TooltipManager

    /** The managers share the chart, and the layout is the one of the
        current panels and container. */
    predicate Valid()
      reads this, crosshair
    {
      crosshair.chart == chart && IsLayoutOf(layout, ChartHeight(container), panels, showGridLines)
    }

    /** The constructor, `init` and `setupInitialConfig`: no panels yet, so
        no grids and no series. */
    constructor (chart: Chart, container: Option<real>)
      modifies chart
      ensures Valid() && fresh(crosshair) && fresh(tooltip) && this.chart == chart
      ensures panels == [] && showGridLines && currentData.None? && this.container == container
      ensures chart.grids == [] && chart.series == [] && chart.graphic == old(chart.graphic)
      ensures crosshair.panels == [] && crosshair.currentDataIndex == -1 && !crosshair.initialized
      ensures tooltip.currentData.None?
    {
      this.chart := chart;
      this.container := container;
      panels := [];
      showGridLines := true;
      currentData := None;
      crosshair := new Crosshair.CrosshairManager(chart);
      tooltip := new Tooltip.TooltipManager();
      new;
      var l := CalculateGridConfig(ChartHeight(container), [], true);
      layout := l;
      chart.grids := Boxes(l.grids);
      chart.series := [];
    }

    /** addPanel: the panel joins at the next position and the layout is
        recomputed. */
    method AddPanel(config: PanelConfig) returns (panel: Panel)
      requires Valid()
      modifies this, chart
      ensures Valid()
      ensures panel == PanelOf(config, |old(panels)|) && panels == old(panels) + [panel]
      ensures chart.grids == Boxes(layout.grids)
      ensures showGridLines == old(showGridLines) && container == old(container) && currentData == old(currentData)
      ensures chart.series == old(chart.series) && chart.graphic == old(chart.graphic)
    {
      panel := PanelOf(config, |panels|);
      panels := panels + [panel];
      UpdateGridConfig();
    }

    /** updateGridConfig. */
    method UpdateGridConfig()
      requires crosshair.chart == chart
      modifies this, chart
      ensures Valid()
      ensures IsLayoutOf(layout, ChartHeight(container), panels, showGridLines) && chart.grids == Boxes(layout.grids)
      ensures panels == old(panels) && showGridLines == old(showGridLines) && container == old(container)
      ensures currentData == old(currentData) && chart.height == old(chart.height)
      ensures chart.series == old(chart.series) && chart.graphic == old(chart.graphic)
      ensures chart.timeAxes == old(chart.timeAxes) && chart.priceRange == old(chart.priceRange)
      ensures chart.tipShown == old(chart.tipShown) && chart.tipIndex == old(chart.tipIndex)
    {
      var l := CalculateGridConfig(ChartHeight(container), panels, showGridLines);
      layout := l;
      chart.grids := Boxes(l.grids);
    }

    /** The resize handler: the container's new height, then the layout. */
    method Resize(newContainer: Option<real>)
      requires Valid()
      modifies this, chart
      ensures Valid() && container == newContainer && chart.height == ChartHeight(newContainer)
      ensures chart.grids == Boxes(layout.grids) && panels == old(panels)
      ensures chart.series == old(chart.series) && chart.graphic == old(chart.graphic)
    {
      container := newContainer;
      chart.height := ChartHeight(newContainer);
      UpdateGridConfig();
    }

    /** updateData: every panel's series in panel order, the same reversed
        time axis on every panel, the snapshot handed to the tooltip, and the
        panels to the crosshair. */
    method UpdateData(data: Snapshot)
      requires Valid()
      modifies this, chart, crosshair, tooltip
      ensures Valid()
      ensures currentData == Some(data) && tooltip.currentData == Some(data)
      ensures chart.series == AllSeries(panels, data, |panels|)
      ensures |chart.timeAxes| == |panels| && forall k :: 0 <= k < |panels| ==> chart.timeAxes[k] == TimeAxis(data.klines)
      ensures crosshair.panels == panels && crosshair.initialized == (old(crosshair.initialized) || |panels| > 0)
      ensures crosshair.currentDataIndex == old(crosshair.currentDataIndex)
      ensures panels == old(panels) && layout == old(layout) && showGridLines == old(showGridLines)
      ensures container == old(container)
      ensures chart.grids == old(chart.grids) && chart.graphic == old(chart.graphic)
      ensures chart.priceRange == old(chart.priceRange) && chart.height == old(chart.height)
    {
      currentData := Some(data);
      var series, xAxisData := PanelsData(panels, data);
      tooltip.UpdateData(data);
      chart.timeAxes := xAxisData;
      chart.series := series;
      crosshair.UpdatePanels(panels);
    }

    /** toggleGridLines: every y-axis shows or hides its split lines. */
    method ToggleGridLines(show: bool)
      requires Valid()
      modifies this
      ensures Valid() && showGridLines == show
      ensures panels == old(panels) && layout.grids == old(layout.grids) && layout.xAxes == old(layout.xAxes)
      ensures forall k :: 0 <= k < |layout.yAxes| ==> layout.yAxes[k].splitLines == show
      ensures container == old(container) && currentData == old(currentData)
    {
      showGridLines := show;
      var n := |panels|;
      layout := layout.(yAxes := seq(n, k requires 0 <= k < n => YAxis(k, show)));
    }
  }
}
