/** The refactored dashboard page (web/static/app-refactored.js): the four
    panels it registers, the price-axis range, the zone bubble next to the
    newest candle, and how a pushed snapshot reaches the chart. */
module Dashboard {
  import opened Wrappers
  import opened JsMath
  import opened ChartData
  import opened Series
  import opened Surface
  import opened ChartLayout
  import Crosshair
  import Tooltip
  import Zones
  import IndexModel
  import Types
  import Realtime

  const BubbleId: string := "zoneBubble"

  /** The bubble's zones: the newest close (source index 0) against index 0
      of each band, by the browser formula. The pushed `zone` fields only
      decide whether a bubble is drawn; their values are not shown. */
  function BubbleZones(s: Snapshot): (z: Option<(int, int)>)
    requires s.klines != []
    ensures z.Some? <==> s.bollinger.Some? && s.bollinger.value.zone.Some? &&
                         s.envelope.Some? && s.envelope.value.zone.Some?
    ensures z.Some? ==> -10 <= z.value.0 <= 10 && -10 <= z.value.1 <= 10
  {
    if s.bollinger.None? || s.bollinger.value.zone.None? || s.envelope.None? || s.envelope.value.zone.None? then None
    else
      var price := Num(s.klines[0].close);
      var b := s.bollinger.value;
      var e := s.envelope.value;
      Some((Zones.JsZone(price, At(b.middle, 0), At(b.upper, 0), At(b.lower, 0)),
            Zones.JsZone(price, At(e.middle, 0), At(e.upper, 0), At(e.lower, 0))))
  }

  /** Where the bubble goes: at the newest candle's close on the main
      panel, which is display index len − 1. */
  function BubblePixel(s: Snapshot, toPixel: ToPixel): (JsNum, JsNum)
    requires s.klines != []
  {
    toPixel(0, (|s.klines| - 1) as real, s.klines[0].close)
  }

  /** The overlays after updateZoneBubbles: unchanged when a zone is missing
      or the pixel is NaN, otherwise the existing lines followed by the
      bubble, 15 px right of and 20 px above the close. */
  function BubbleGraphic(previous: seq<Overlay>, s: Snapshot, toPixel: ToPixel): (g: seq<Overlay>)
    requires s.klines != []
  {
    var z := BubbleZones(s);
    var pixel := BubblePixel(s, toPixel);
    if z.None? || pixel.0.IsNaN() || pixel.1.IsNaN() then previous
    else LineOverlays(previous) + [Text(BubbleId, pixel.0.v + 15.0, pixel.1.v - 20.0, z.value.0, z.value.1)]
  }

  /** A drawn bubble replaces every earlier text and keeps every line;
      otherwise nothing changes. */
  lemma BubbleKeepsLines(previous: seq<Overlay>, s: Snapshot, toPixel: ToPixel)
    requires s.klines != []
    ensures var g := BubbleGraphic(previous, s, toPixel);
            var pixel := BubblePixel(s, toPixel);
            (BubbleZones(s).None? || pixel.0.IsNaN() || pixel.1.IsNaN() ==> g == previous) &&
            (BubbleZones(s).Some? && !pixel.0.IsNaN() && !pixel.1.IsNaN() ==>
               LineOverlays(g) == LineOverlays(previous) && |Texts(g)| == 1 && Texts(g)[0].id == BubbleId &&
               Texts(g)[0].bollZone == BubbleZones(s).value.0 && Texts(g)[0].envZone == BubbleZones(s).value.1)
  {
    var z := BubbleZones(s);
    var pixel := BubblePixel(s, toPixel);
    if z.Some? && !pixel.0.IsNaN() && !pixel.1.IsNaN() {
      var bubble := Text(BubbleId, pixel.0.v + 15.0, pixel.1.v - 20.0, z.value.0, z.value.1);
      assert BubbleGraphic(previous, s, toPixel) == LineOverlays(previous) + [bubble];
      BubbleOnlyText(previous, bubble);
      BubbleKeepsEveryLine(previous, bubble);
    }
  }

  /** Once the bubble is drawn it is the only text, so it survives the
      pointer leaving the chart. */
  lemma BubbleOnlyText(previous: seq<Overlay>, bubble: Overlay)
    requires bubble.Text?
    ensures Texts(LineOverlays(previous) + [bubble]) == [bubble]
  {
    var lines := LineOverlays(previous);
    FiltersSplit(previous);
    TextsAppend(lines, [bubble]);
    assert Texts([bubble]) == [bubble] by { assert [bubble][..0] == []; }
  }

  lemma BubbleKeepsEveryLine(previous: seq<Overlay>, bubble: Overlay)
    requires bubble.Text?
    ensures LineOverlays(LineOverlays(previous) + [bubble]) == LineOverlays(previous)
  {
    var lines := LineOverlays(previous);
    FiltersSplit(previous);
    LinesAppend(lines, [bubble]);
    assert LineOverlays([bubble]) == [] by { assert [bubble][..0] == []; }
  }

  /** The bubble and the crosshair line leave each other alone: drawing
      the crosshair after the bubble, or the bubble after the crosshair,
      ends with the same two overlays, the line and then the bubble. */
  lemma BubbleAndCrosshairCommute(previous: seq<Overlay>, bubble: Overlay, x: real,
                                  grids: seq<GridBox>, n: int, h: real)
    requires bubble.Text?
    ensures var line := Line(Crosshair.CrosshairId, x, Crosshair.MinTop(grids, n, h), Crosshair.MaxBottom(grids, n, h));
            Crosshair.CrosshairOverlays(LineOverlays(previous) + [bubble], x, grids, n, h) == [line, bubble] &&
            LineOverlays(Crosshair.CrosshairOverlays(previous, x, grids, n, h)) + [bubble] == [line, bubble]
  {
    var g := LineOverlays(previous) + [bubble];
    BubbleOnlyText(previous, bubble);
    assert Crosshair.CrosshairOverlays(g, x, grids, n, h)[1..] == [bubble];
    Crosshair.MoveThenOutKeepsTexts(previous, x, grids, n, h);
  }

  /** What a pushed message becomes in the browser. */
  function Decoded(klines: seq<Types.Kline>, c: Types.IndicatorConfig, symbol: string, interval: string,
                   sqrt: real -> real, cciKeys: seq<string>, macdKeys: seq<string>, rsiKeys: seq<string>): Snapshot
    requires Realtime.PushOf(klines, c, symbol, interval, sqrt).Pushed?
    requires var d := Realtime.PushOf(klines, c, symbol, interval, sqrt).data;
             Enumerates(cciKeys, d.cci) && Enumerates(macdKeys, d.macd) && Enumerates(rsiKeys, d.rsi)
  {
    FromPush(Realtime.PushOf(klines, c, symbol, interval, sqrt).data, cciKeys, macdKeys, rsiKeys)
  }

  /** The two reversals cancel: on the chart, display index i shows the
      exchange's kline i (oldest at the left) in the candles and in the
      time axis. */
  lemma PushedCandlesInExchangeOrder(klines: seq<Types.Kline>, c: Types.IndicatorConfig, symbol: string,
                                     interval: string, sqrt: real -> real,
                                     cciKeys: seq<string>, macdKeys: seq<string>, rsiKeys: seq<string>, i: int)
    requires Realtime.PushOf(klines, c, symbol, interval, sqrt).Pushed?
    requires var d := Realtime.PushOf(klines, c, symbol, interval, sqrt).data;
             Enumerates(cciKeys, d.cci) && Enumerates(macdKeys, d.macd) && Enumerates(rsiKeys, d.rsi)
    requires 0 <= i < |klines|
    ensures var s := Decoded(klines, c, symbol, interval, sqrt, cciKeys, macdKeys, rsiKeys);
            var k := Realtime.ToKlineData(klines[i]);
            |MainPanelSeries(s, 0)[0].data| == |klines| &&
            MainPanelSeries(s, 0)[0].data[i] == OhlcOf(k) && TimeAxis(s.klines)[i] == LabelOf(k)
  {
    Realtime.PushNewestFirst(klines, c, symbol, interval, sqrt);
    var d := Realtime.PushOf(klines, c, symbol, interval, sqrt).data;
    var s := Decoded(klines, c, symbol, interval, sqrt, cciKeys, macdKeys, rsiKeys);
    assert s == FromPush(d, cciKeys, macdKeys, rsiKeys);
    assert s.klines == d.klines;
    NewestFirstDisplay(s.klines, klines, i);
    assert MainPanelSeries(s, 0)[0].data[i] == OhlcOf(s.klines[|s.klines| - 1 - i]);
  }

  /** Bars laid out newest first are shown oldest first: display index i
      is exchange kline i. */
  lemma NewestFirstDisplay(bars: seq<ServiceTypes.KlineData>, klines: seq<Types.Kline>, i: int)
    requires |bars| == |klines| && 0 <= i < |bars|
    requires forall j :: 0 <= j < |bars| ==> bars[j] == Realtime.ToKlineData(klines[|klines| - 1 - j])
    ensures bars[|bars| - 1 - i] == Realtime.ToKlineData(klines[i])
    ensures TimeAxis(bars)[i] == LabelOf(Realtime.ToKlineData(klines[i]))
  {
    assert bars[|bars| - 1 - i] == Realtime.ToKlineData(klines[|klines| - 1 - (|bars| - 1 - i)]);
  }

  /** For a pushed snapshot the tooltip's zone line at the newest candle
      and the bubble show the same two zones: the live price the tooltip
      prefers there is the newest close the bubble uses. */
  lemma PushedTooltipMatchesBubble(klines: seq<Types.Kline>, c: Types.IndicatorConfig, symbol: string,
                                   interval: string, sqrt: real -> real,
                                   cciKeys: seq<string>, macdKeys: seq<string>, rsiKeys: seq<string>)
    requires Realtime.PushOf(klines, c, symbol, interval, sqrt).Pushed?
    requires var d := Realtime.PushOf(klines, c, symbol, interval, sqrt).data;
             Enumerates(cciKeys, d.cci) && Enumerates(macdKeys, d.macd) && Enumerates(rsiKeys, d.rsi)
    ensures var s := Decoded(klines, c, symbol, interval, sqrt, cciKeys, macdKeys, rsiKeys);
            s.klines != [] && BubbleZones(s).Some? &&
            Tooltip.ZoneLineOf(|s.klines| - 1, true, Some(s)) ==
              Tooltip.ZoneLine(BubbleZones(s).value.0, BubbleZones(s).value.1)
  {
    Realtime.PushNewestFirst(klines, c, symbol, interval, sqrt);
    var d := Realtime.PushOf(klines, c, symbol, interval, sqrt).data;
    var s := Decoded(klines, c, symbol, interval, sqrt, cciKeys, macdKeys, rsiKeys);
    var n := |klines|;
    assert s == FromPush(d, cciKeys, macdKeys, rsiKeys);
    assert s.klines == d.klines && s.price == Num(d.price);
    assert s.bollinger == Some(BandOf(d.bollinger)) && s.envelope == Some(BandOf(d.envelope));
    assert s.klines[0] == Realtime.ToKlineData(klines[n - 1]);
    TooltipMatchesBubble(s);
  }

  /** The same for any snapshot whose price is its newest close and whose
      bands cover every candle. */
  lemma TooltipMatchesBubble(s: Snapshot)
    requires s.klines != [] && s.price == Num(s.klines[0].close)
    requires s.bollinger.Some? && s.bollinger.value.zone.Some? && s.envelope.Some? && s.envelope.value.zone.Some?
    requires |s.bollinger.value.upper| == |s.klines|
    ensures BubbleZones(s).Some? &&
            Tooltip.ZoneLineOf(|s.klines| - 1, true, Some(s)) ==
              Tooltip.ZoneLine(BubbleZones(s).value.0, BubbleZones(s).value.1)
  {
    Tooltip.ZoneLineAligned(|s.klines| - 1, s);
  }

  /** The refactored page: the chart manager and the globals it keeps. */
  class Page {
    var currentChartData: Option<Snapshot>
    var showGridLines: bool
    const manager: ChartManager

    predicate Valid()
      reads this, manager, manager.crosshair
    {
      manager.Valid() && showGridLines == manager.showGridLines
    }

    /** The DOMContentLoaded handler's chart part: a manager on the
        container, then setupChartPanels. */
    constructor (chart: Chart, container: Option<real>)
      modifies chart
      ensures Valid() && fresh(manager) && fresh(manager.crosshair) && fresh(manager.tooltip)
      ensures manager.chart == chart && manager.panels == DefaultPanels() && manager.currentData.None?
      ensures currentChartData.None? && showGridLines
      ensures chart.series == [] && chart.grids == Boxes(manager.layout.grids)
    {
      currentChartData := None;
      showGridLines := true;
      manager := new ChartManager(chart, container);
      new;
      SetupChartPanels();
    }

    /** setupChartPanels: main, MACD, CCI and RSI, in that order. */
    method SetupChartPanels()
      requires Valid() && manager.panels == []
      modifies manager, manager.chart
      ensures Valid() && manager.panels == DefaultPanels()
      ensures manager.chart.grids == Boxes(manager.layout.grids)
      ensures manager.chart.series == old(manager.chart.series) && manager.chart.graphic == old(manager.chart.graphic)
      ensures manager.currentData == old(manager.currentData)
    {
      var main := manager.AddPanel(PanelConfig("main", "主看板", Num(0.45), Some(MainFactory)));
      var macd := manager.AddPanel(PanelConfig("macd", "MACD", Num(0.20), Some(MacdFactory)));
      var cci := manager.AddPanel(PanelConfig("cci", "CCI", Num(0.15), Some(CciFactory)));
      var rsi := manager.AddPanel(PanelConfig("rsi", "RSI", Num(0.15), Some(RsiFactory)));
    }

    /** updateUnifiedChart: a missing or empty snapshot changes nothing;
        otherwise the snapshot becomes the tooltip's, every panel is
        redrawn, the main price axis gets the padded range of the candles,
        and the zone bubble is redrawn. */
    method UpdateUnifiedChart(data: Option<Snapshot>, toPixel: ToPixel)
      requires Valid()
      modifies this, manager, manager.chart, manager.crosshair, manager.tooltip
      ensures Valid()
      ensures data.None? || data.value.klines == [] ==>
                unchanged(this) && unchanged(manager) && unchanged(manager.chart) &&
                unchanged(manager.crosshair) && unchanged(manager.tooltip)
      ensures data.Some? && data.value.klines != [] ==>
                var s := data.value;
                currentChartData == data && manager.currentData == data && manager.tooltip.currentData == data &&
                manager.chart.series == AllSeries(manager.panels, s, |manager.panels|) &&
                manager.chart.priceRange == Some(PriceRangeOf(IndexModel.Reverse(s.klines))) &&
                manager.chart.graphic == BubbleGraphic(old(manager.chart.graphic), s, toPixel) &&
                |manager.chart.timeAxes| == |manager.panels| &&
                (forall k :: 0 <= k < |manager.panels| ==> manager.chart.timeAxes[k] == TimeAxis(s.klines))
      ensures manager.panels == old(manager.panels) && manager.chart.grids == old(manager.chart.grids)
    {
      if data.None? || data.value.klines == [] {
        return;
      }
      var s := data.value;
      var klines := IndexModel.Reverse(s.klines);
      var priceRange := CalculatePriceRange(klines);
      currentChartData := data;
      manager.UpdateData(s);
      manager.chart.priceRange := Some(priceRange);
      UpdateZoneBubbles(s, toPixel);
    }

    /** updateZoneBubbles. */
    method UpdateZoneBubbles(data: Snapshot, toPixel: ToPixel)
      requires data.klines != []
      modifies manager.chart
      ensures manager.chart.graphic == BubbleGraphic(old(manager.chart.graphic), data, toPixel)
      ensures manager.chart.series == old(manager.chart.series) && manager.chart.grids == old(manager.chart.grids)
      ensures manager.chart.timeAxes == old(manager.chart.timeAxes) && manager.chart.priceRange == old(manager.chart.priceRange)
      ensures manager.chart.height == old(manager.chart.height)
      ensures manager.chart.tipShown == old(manager.chart.tipShown) && manager.chart.tipIndex == old(manager.chart.tipIndex)
    {
      if data.bollinger.None? || data.bollinger.value.zone.None? ||
         data.envelope.None? || data.envelope.value.zone.None? {
        return;
      }
      var chart := manager.chart;
      var timeAxisData := TimeAxis(data.klines);
      var latestDataIndex := |timeAxisData| - 1;
      var latestPrice := data.klines[0].close;
      var b := data.bollinger.value;
      var e := data.envelope.value;
      var bollZone := Zones.JsZone(Num(latestPrice), At(b.middle, 0), At(b.upper, 0), At(b.lower, 0));
      var envZone := Zones.JsZone(Num(latestPrice), At(e.middle, 0), At(e.upper, 0), At(e.lower, 0));
      var pixelPoint := toPixel(0, latestDataIndex as real, latestPrice);
      if pixelPoint.0.IsNaN() || pixelPoint.1.IsNaN() {
        return;
      }
      var zoneGraphics := [Text(BubbleId, pixelPoint.0.v + 15.0, pixelPoint.1.v - 20.0, bollZone, envZone)];
      var alignmentLines := LineOverlays(chart.graphic);
      chart.graphic := alignmentLines + zoneGraphics;
    }

    /** toggleGridLines: the page's flag and the chart's y-axes. */
    method ToggleGridLines(show: bool)
      requires Valid()
      modifies this, manager
      ensures Valid() && showGridLines == show && manager.showGridLines == show
      ensures forall k :: 0 <= k < |manager.layout.yAxes| ==> manager.layout.yAxes[k].splitLines == show
      ensures manager.panels == old(manager.panels) && currentChartData == old(currentChartData)
    {
      showGridLines := show;
      manager.ToggleGridLines(show);
    }
  }
}
