/** The ECharts instance as the page's scripts see it: the graphic
    overlays, the tooltip, the grid boxes, the series, the time axes and the
    price axis range, plus the panels the chart manager lays out
    (web/static/chart-manager.js, web/static/app-refactored.js,
    web/static/app.js). The library's coordinate conversions are function
    parameters: nothing about them is assumed. */
module Surface {
  import opened Wrappers
  import opened JsMath
  import opened ChartData
  import opened Series

  /** A graphic overlay: a dashed vertical line, or the zone bubble's text.
      A line runs from `from` down to `to`, each None when it stayed at the ±Infinity
      seed of the extent search. */
  datatype Overlay =
    | Line(id: string, x: real, from: Option<real>, to: Option<real>)
    | Text(id: string, left: real, top: real, bollZone: int, envZone: int)

  /** `graphic.filter(g => g && g.type === 'text')`. */
  function Texts(g: seq<Overlay>): (r: seq<Overlay>)
    ensures |r| <= |g|
    ensures forall i :: 0 <= i < |r| ==> r[i].Text? && r[i] in g
  {
    if g == [] then []
    else
      var n := |g| - 1;
      var front := Texts(g[..n]);
      assert forall i :: 0 <= i < |front| ==> front[i] in g[..n] ==> front[i] in g;
      front + (if g[n].Text? then [g[n]] else [])
  }

  /** `graphic.filter(g => g && g.type === 'line')`. */
  function LineOverlays(g: seq<Overlay>): (r: seq<Overlay>)
    ensures |r| <= |g|
    ensures forall i :: 0 <= i < |r| ==> r[i].Line? && r[i] in g
  {
    if g == [] then []
    else
      var n := |g| - 1;
      var front := LineOverlays(g[..n]);
      assert forall i :: 0 <= i < |front| ==> front[i] in g[..n] ==> front[i] in g;
      front + (if g[n].Line? then [g[n]] else [])
  }

  /** Filtering distributes over concatenation. */
  lemma {:induction false} TextsAppend(a: seq<Overlay>, b: seq<Overlay>)
    ensures Texts(a + b) == Texts(a) + Texts(b)
  {
    if b != [] {
      var n := |b| - 1;
      assert (a + b)[..|a + b| - 1] == a + b[..n];
      TextsAppend(a, b[..n]);
    } else {
      assert a + b == a;
    }
  }

  lemma {:induction false} LinesAppend(a: seq<Overlay>, b: seq<Overlay>)
    ensures LineOverlays(a + b) == LineOverlays(a) + LineOverlays(b)
  {
    if b != [] {
      var n := |b| - 1;
      assert (a + b)[..|a + b| - 1] == a + b[..n];
      LinesAppend(a, b[..n]);
    } else {
      assert a + b == a;
    }
  }

  /** Every overlay is a line or a text, so the two filters together keep
      everything: they split the list. */
  lemma {:induction false} FiltersSplit(g: seq<Overlay>)
    ensures |Texts(g)| + |LineOverlays(g)| == |g|
    ensures Texts(Texts(g)) == Texts(g) && LineOverlays(LineOverlays(g)) == LineOverlays(g)
    ensures Texts(LineOverlays(g)) == [] && LineOverlays(Texts(g)) == []
  {
    if g != [] {
      var n := |g| - 1;
      FiltersSplit(g[..n]);
      TextsAppend(Texts(g[..n]), if g[n].Text? then [g[n]] else []);
      LinesAppend(LineOverlays(g[..n]), if g[n].Line? then [g[n]] else []);
      TextsAppend(LineOverlays(g[..n]), if g[n].Line? then [g[n]] else []);
      LinesAppend(Texts(g[..n]), if g[n].Text? then [g[n]] else []);
    }
  }

  /** A grid option's size: a pixel number or a percentage string. */
  datatype Size = Px(px: real) | Pct(pct: real)

  /** The vertical part of a grid option. */
  datatype GridBox = GridBox(top: Size, height: Option<Size>, bottom: Option<Size>)

  function SizeIn(s: Size, chartHeight: real): real
  {
    match s
    case Px(v) => v
    case Pct(p) => chartHeight * p / 100.0
  }

  /** The grid's top edge in pixels. */
  function GridTop(g: GridBox, chartHeight: real): (t: real)
    ensures g.top.Px? ==> t == g.top.px
    ensures g.top.Pct? ==> t == chartHeight * g.top.pct / 100.0
  {
    SizeIn(g.top, chartHeight)
  }

  /** A `height` option counts only when it is truthy: a percentage string
      always is, a pixel number when it is not 0. */
  predicate HeightTruthy(h: Option<Size>)
  {
    h.Some? && (h.value.Pct? || h.value.px != 0.0)
  }

  /** The grid's bottom edge in pixels, as both crosshair scripts compute
      it: a percentage `bottom` measures up from the chart's foot; otherwise
      a truthy `height` is added to the top; otherwise the foot itself. A
      pixel `bottom` is ignored. */
  function GridBottom(g: GridBox, chartHeight: real): (b: real)
    ensures g.bottom.Some? && g.bottom.value.Pct? ==> b == chartHeight * (1.0 - g.bottom.value.pct / 100.0)
    ensures !(g.bottom.Some? && g.bottom.value.Pct?) && HeightTruthy(g.height) ==>
              b == GridTop(g, chartHeight) + SizeIn(g.height.value, chartHeight)
    ensures !(g.bottom.Some? && g.bottom.value.Pct?) && !HeightTruthy(g.height) ==> b == chartHeight
  {
    if g.bottom.Some? && g.bottom.value.Pct? then chartHeight * (1.0 - g.bottom.value.pct / 100.0)
    else if HeightTruthy(g.height) then GridTop(g, chartHeight) + SizeIn(g.height.value, chartHeight)
    else chartHeight
  }

  /** `convertFromPixel({gridIndex}, [x, y])[0]`: NaN stands for a null
      answer or a thrown error as well. */
  type FromPixel = (int, real, real) -> JsNum

  /** `convertToPixel({gridIndex}, [dataIndex, value])`. */
  type ToPixel = (int, real, real) -> (JsNum, JsNum)

  /** A time-axis label: a formatting of the candle's timestamp (the
      formatting itself is not modelled). */
  datatype TimeLabel = Stamp(time: int)

  /** The label of one candle. The page's empty label for a falsy `time`
      is never chosen: the back end writes every time, the zero time
      included, as a non-empty RFC 3339 string, which is truthy. */
  function LabelOf(k: ServiceTypes.KlineData): TimeLabel
  {
    Stamp(k.time)
  }

  /** `klines.map(label).reverse()`: display index d labels source
      index len − 1 − d. */
  function TimeAxis(ks: seq<ServiceTypes.KlineData>): (r: seq<TimeLabel>)
    ensures |r| == |ks|
    ensures forall d :: 0 <= d < |ks| ==> r[d] == LabelOf(ks[|ks| - 1 - d])
  {
    var labels := seq(|ks|, i requires 0 <= i < |ks| => LabelOf(ks[i]));
    IndexModel.ReverseAt(labels);
    IndexModel.Reverse(labels)
  }

  /** The parts of the chart's option the scripts write or read back. */
  class Chart {
    var graphic: seq<Overlay>
    var tipShown: bool
    var tipIndex: int
    var grids: seq<GridBox>
    var height: real
    var series: seq<Series>
    var timeAxes: seq<seq<TimeLabel>>
    var priceRange: Option<PriceRange>

    /** `echarts.init`: an empty chart of the container's height. */
    constructor (height: real)
      ensures graphic == [] && !tipShown && tipIndex == -1 && grids == [] && this.height == height
      ensures series == [] && timeAxes == [] && priceRange.None?
    {
      graphic := [];
      tipShown := false;
      tipIndex := -1;
      grids := [];
      this.height := height;
      series := [];
      timeAxes := [];
      priceRange := None;
    }
  }

  /** The series factory a panel was configured with. */
  datatype Factory = MainFactory | MacdFactory | CciFactory | RsiFactory

  /** The object given to `addPanel`. */
  datatype PanelConfig = PanelConfig(id: string, name: string, heightPercent: JsNum, factory: Option<Factory>)

  /** A ChartPanel: its share of the chart's height and its position. */
  datatype Panel = Panel(id: string, name: string, heightPercent: real, index: int, factory: Option<Factory>)

  /** `new ChartPanel(config, index)`: a falsy share becomes 0.25. */
  function PanelOf(config: PanelConfig, index: int): (p: Panel)
    ensures p.index == index && p.id == config.id && p.factory == config.factory
    ensures config.heightPercent.Truthy() ==> p.heightPercent == config.heightPercent.v
    ensures !config.heightPercent.Truthy() ==> p.heightPercent == 0.25
  {
    Panel(config.id, config.name, if config.heightPercent.Truthy() then config.heightPercent.v else 0.25,
          index, config.factory)
  }

  /** ChartPanel.createSeries: the factory's series, or none. */
  function PanelSeriesOf(p: Panel, data: Snapshot, g: int): (r: seq<Series>)
    ensures forall i :: 0 <= i < |r| ==> r[i].axis == Some(g)
  {
    match p.factory
    case None => []
    case Some(MainFactory) => MainPanelSeries(data, g)
    case Some(MacdFactory) => MacdPanelSeries(data.macd, g)
    case Some(CciFactory) => IndicatorPanelOf(data.cci, "CCI", CciColors, g)
    case Some(RsiFactory) => IndicatorPanelOf(data.rsi, "RSI", RsiColors, g)
  }

  method CreateSeries(p: Panel, data: Snapshot, g: int) returns (series: seq<Series>)
    ensures series == PanelSeriesOf(p, data, g)
    ensures forall i :: 0 <= i < |series| ==> series[i].axis == Some(g)
  {
    match p.factory
    case None => series := [];
    case Some(MainFactory) => series := MainPanelSeries(data, g);
    case Some(MacdFactory) => series := MacdPanelSeries(data.macd, g);
    case Some(CciFactory) =>
      series := IndicatorPanelSeries(data.cci, "CCI", CciColors, g);
    case Some(RsiFactory) =>
      series := IndicatorPanelSeries(data.rsi, "RSI", RsiColors, g);
  }
}
