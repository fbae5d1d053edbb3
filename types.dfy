/** The shared records of the back end (pkg/types/kline.go, pkg/types/config.go):
    one candle of the exchange's kline stream and the per-symbol indicator
    configuration with its defaults. Periods are counted in hours and scaled
    to the kline interval before use. */
module Types {

  /** One candle. `timestamp` is the open time in milliseconds since the
      Unix epoch (UTC). */
  datatype Kline = Kline(symbol: string, open: real, high: real, low: real, close: real,
                         volume: real, timestamp: int)

  datatype IndicatorConfig = IndicatorConfig(
    cciPeriod1: int, cciPeriod2: int, cciPeriod3: int,
    macdFast1: int, macdSlow1: int, macdSignal1: int,
    macdFast2: int, macdSlow2: int, macdSignal2: int,
    macdN1: real, macdN2: real,
    rsiPeriod1: int, rsiPeriod2: int,
    bollPeriod: int, bollDeviation: real,
    envPeriod: int, envDeviation: real)

  /** GetDefaultConfig: CCI 48/72/168, MACD 48/72/2 and 72/168/2 with
      N1 = 2000 and N2 = 1000, RSI 48/72, Bollinger 24 periods at 2.0
      deviations, envelope 24 periods at 2.28 percent. */
  function DefaultConfig(): (c: IndicatorConfig)
    ensures c.macdFast1 < c.macdSlow1 && c.macdFast2 < c.macdSlow2
    ensures c.cciPeriod1 < c.cciPeriod2 < c.cciPeriod3 && c.rsiPeriod1 < c.rsiPeriod2
  {
    IndicatorConfig(
      48, 72, 168,
      48, 72, 2,
      72, 168, 2,
      2000.0, 1000.0,
      48, 72,
      24, 2.0,
      24, 2.28)
  }
}
