# A verified model of the cyan indicator dashboard

The cyan dashboard charts technical indicators for Binance symbols. Its Go back end fetches klines (candles) from the exchange. From their typical price (high + low + close) / 3 it computes CCI, MACD, RSI, Bollinger bands, a percentage envelope and a five-day average range. It serves them over HTTP and pushes them to the browser on every price tick, and once a second even without one. The browser draws one ECharts chart with four stacked panels: main (candles and bands), MACD, CCI and RSI. A dashed crosshair runs across them, a tooltip groups the values of the hovered candle by panel, and a bubble next to the newest candle shows its price zone.

The thread that ties the pieces together is the index convention:

- the exchange delivers klines oldest first;
- the Go services lay every series out newest first, so index 0 is the newest candle;
- every browser series factory reverses its array again for display;
- the tooltip maps display index d back to source index len−1−d.

The model proves that these reversals cancel. Display index i shows exchange kline i in the candles and in the time axis, and the tooltip's zone at the newest candle is the bubble's.

## Modules

One Dafny module per source file or concern:

- **Kernels.** `Hlcc`, `Wma`, `Sma`, `Envelope`, `Bollinger`, `Cci`, `Rsi`, `Macd` and `Volatility` model pkg/indicators.
  - Each is a method that fills an `array<real>` with the source's loops.
  - Each is proved equal to a specification function over `seq<real>`.
  - The properties are proved as lemmas about those functions.
  - A nil slice is `None`.
  - `math.Sqrt` is a function parameter.
- **Types and parsing.**
  - `Types` holds the kline record and `IndicatorConfig` with its defaults.
  - `Interval` does interval parsing and period scaling with 64-bit wrap-around.
  - `AppConfig` holds `setDefaults` and `selectAPIKeys` over a `Config` class.
  - `Handler` models the HTTP handlers' parameter defaulting and validation chain.
- **Services.**
  - `IndicatorService` has its Redis cache as a map field; the exchange's answer is a parameter.
  - `Realtime` holds `RealtimeService` with its symbol, interval, klines and config map. Its push is `PushOf`, a function of that state.
  - `ServiceTypes` and `Channel` hold the records the services return.
- **Browser.**
  - `JsMath` holds JavaScript numbers with NaN and `undefined`, `Math.round`, and Go's `int(f)`.
  - `Decimal` holds integer text as `%d`, `parseInt` and `fmt.Sscanf` see it.
  - `IndexModel` holds the reversal.
  - `ChartData` is the parsed snapshot.
  - `Series` has the four series factories and the price range.
  - `Zones` has both zone formulas.
  - `Surface` is the ECharts instance as a class. Overlays are `Line` or `Text`, and pixel conversions are function parameters.
  - `ChartLayout` holds `ChartManager`, `Crosshair` holds `CrosshairManager`, and `Tooltip` holds `TooltipManager`.
  - `Dashboard` is the refactored page.
  - `LegacyChart` is the original page.
  - `ConfigPanel` covers the configuration panels and the JSON they exchange with the back end.

Numbers are `real`; Go's 64-bit `int` is `int` with the wrap-around written out where the source can overflow.

## Model

| member | source | states |
|---|---|---|
| Wma.Denominator | pkg/indicators/wma.go:13 | `period*(period+1)/2` divides exactly: twice the denominator is period·(period+1), and it is at least 1 |
| Wma.ConsecutiveProductEven | pkg/indicators/wma.go:13 | the product of two consecutive integers is even, so the integer division in the denominator loses nothing |
| Wma.FillWma | pkg/indicators/wma.go:16-32 | the descending weighted-sum loop and the back-fill leave the array equal to the WMA series: full windows first, then the last full window repeated |
| Wma.CalculateWma | pkg/indicators/wma.go:7-35 | nil exactly when the input is shorter than the period; otherwise one entry per input, entry i the weighted window sum over the denominator for full windows, and the tail repeats entry len−period |
| Wma.WeightTotalClosedForm | pkg/indicators/wma.go:19-22 | the first k weights period, period−1, … sum to (2·k·period − k·(k−1))/2 |
| Wma.WeightedSumOfConstant | pkg/indicators/wma.go:19-22 | on a constant window the weighted sum is the constant times the sum of the weights |
| Wma.WmaOfConstant | pkg/indicators/wma.go:7-35 | the WMA of a constant series is that constant at every index, tail included |
| Wma.WeightedSumNonNegative | pkg/indicators/wma.go:19-22 | a weighted sum of non-negative prices with positive weights is non-negative |
| Wma.WmaNonNegative | pkg/indicators/wma.go:7-35 | the WMA of a non-negative series is non-negative everywhere (the RSI averages rely on it) |
| Sma.CalculateSma | pkg/indicators/sma.go:7-34 | nil exactly when the input is shorter than the period; otherwise entry i is the window sum times 1/period for full windows, and the tail repeats entry len−period |
| Sma.WindowSumBounds | pkg/indicators/sma.go:18-21 | a sum of k prices between lo and hi lies between k·lo and k·hi |
| Sma.SmaWithinWindow | pkg/indicators/sma.go:17-23 | a window mean lies between any lower and upper bound of its window |
| Hlcc.Typical | pkg/indicators/price.go:14 | three times the typical price is high + low + close, and it lies between low and high when the close does |
| Hlcc.CalculateHlcc | pkg/indicators/price.go:5-18 | nil exactly when the three lengths differ; otherwise entry i is the typical price of bar i |
| Cci.SumAbsDeviations | pkg/indicators/cci.go:28-33 | the inner loop adds the absolute deviations of the window about the WMA, in order |
| Cci.FillMad | pkg/indicators/cci.go:23-43 | the MAD array holds the mean absolute deviation of every full window about its WMA, and the last one repeated in the tail |
| Cci.FillCci | pkg/indicators/cci.go:46-64 | the CCI array holds (price − WMA)/(0.015·MAD) per full window, 0 where the MAD is 0, and the last value repeated in the tail |
| Cci.CalculateCci | pkg/indicators/cci.go:10-67 | nil exactly when the input is shorter than the period; otherwise one entry per input, the tail repeating entry len−period |
| Cci.CalculateCciMulti | pkg/indicators/cci.go:73-79 | one CCI result per requested period, in the order given |
| Cci.AbsDeviationsNonNegative | pkg/indicators/cci.go:31-33 | a sum of absolute deviations is never negative |
| Cci.MadNonNegative | pkg/indicators/cci.go:23-43 | the mean absolute deviation is never negative at any index |
| Cci.CciSign | pkg/indicators/cci.go:50-56 | a zero deviation gives CCI 0; otherwise the CCI is positive exactly when the price is above its WMA and negative exactly when below |
| Rsi.ChangesNonNegative | pkg/indicators/rsi.go:22-36 | every gain and every loss is non-negative |
| Rsi.PriceChanges | pkg/indicators/rsi.go:13-36 | gains and losses are non-negative and never both non-zero, gain − loss is the change price[i] − price[i+1], and the oldest entry has neither |
| Rsi.FillRsi | pkg/indicators/rsi.go:47-66 | entry i is 100 − 100/(1 + rs) at its anchor (i itself, or len−period for the tail), with rs = 100 where the average loss is 0 |
| Rsi.CalculateRsi | pkg/indicators/rsi.go:7-69 | nil exactly when there are fewer than period + 1 prices; otherwise one entry per input, the tail repeating entry len−period |
| Rsi.CalculateRsiMulti | pkg/indicators/rsi.go:75-81 | one RSI result per requested period, in the order given |
| Rsi.RsiAtRange | pkg/indicators/rsi.go:51-57 | for non-negative averages the RSI formula gives a value in [0, 100) |
| Rsi.RsiRange | pkg/indicators/rsi.go:7-69 | every RSI value lies in [0, 100) |
| Macd.FillDiff | pkg/indicators/macd.go:23-27 | the difference is fast WMA − slow WMA up to len−slow and keeps make's zero after |
| Macd.FillMacdLine | pkg/indicators/macd.go:30-43 | the MACD line is the mean of the two older differences, the older one alone or the entry itself near the end, up to len−signal, and zero after |
| Macd.FillHistogram | pkg/indicators/macd.go:49-52 | the histogram is a copy of the difference |
| Macd.CalculateMacd | pkg/indicators/macd.go:9-55 | all three nil exactly when the input is shorter than the slow or the fast period; otherwise line and histogram have one entry per input, and the signal line (a WMA of the line) is nil exactly when the input is shorter than the signal period |
| Macd.CalculateMacdMulti | pkg/indicators/macd.go:61-72 | one slot per configuration: nil for one with fewer than three numbers, otherwise the MACD of its first three |
| Macd.MacdOfConstant | pkg/indicators/macd.go:9-55 | a flat price series has MACD line, signal line and histogram all zero |
| Bollinger.WindowSumFront | pkg/indicators/bollinger.go:64-67 | a window sum splits into its first price plus the sum of the rest |
| Bollinger.WindowSlide | pkg/indicators/bollinger.go:66 | sliding the window one step toward the newest data drops price[i+period] and adds price[i] |
| Bollinger.SumSquares | pkg/indicators/bollinger.go:56-60 | the loop adds the squared deviations of the window about its mean, in order |
| Bollinger.WindowStd | pkg/indicators/bollinger.go:55-61 | the square root of the mean squared deviation about the window's SMA |
| Bollinger.FillStd | pkg/indicators/bollinger.go:42-86 | the first window and the rolling sum give every full window's standard deviation about its own SMA, and the tail repeats the last one |
| Bollinger.FillBands | pkg/indicators/bollinger.go:89-102 | upper and lower are middle ± deviation·std at each full window, and at len−period for the tail |
| Bollinger.CalculateBollinger | pkg/indicators/bollinger.go:10-105 | nil exactly when the input is shorter than the period; otherwise three lines of the input's length whose middle is the WMA |
| Bollinger.BollingerShape | pkg/indicators/bollinger.go:89-102 | the upper and lower bands lie at the same distance above and below the middle line |
| Bollinger.BollingerOrdered | pkg/indicators/bollinger.go:89-102 | with a non-negative deviation and a non-negative square root, lower ≤ middle ≤ upper at every index |
| Envelope.FillBands | pkg/indicators/envelope.go:40-55 | upper and lower are the middle line times 1 ± d/100 at each full window, and at len−period for the tail |
| Envelope.CalculateEnvelope | pkg/indicators/envelope.go:8-58 | nil exactly when the input is shorter than the period; otherwise three lines of the input's length whose middle is the WMA |
| Envelope.EnvelopeShape | pkg/indicators/envelope.go:40-55 | every entry, tail included, is the middle line at its anchor scaled by 1 ± d/100 |
| Envelope.EnvelopeOrdered | pkg/indicators/envelope.go:40-55 | with a non-negative percentage and non-negative prices, lower ≤ middle ≤ upper at every index |
| Volatility.LatestExists | pkg/indicators/volatility.go:97-103 | a non-empty set of day entries has one whose date is not before any other |
| Volatility.Newest | pkg/indicators/volatility.go:96-103 | the entries of a set with distinct dates, each once, most recent date first |
| Volatility.QualifyingUnique | pkg/indicators/volatility.go:75-87 | the collected day entries carry distinct dates, since they come from distinct map keys |
| Volatility.GroupByDay | pkg/indicators/volatility.go:37-66 | the grouping loop builds the day map of the klines before the current UTC day |
| Volatility.CollectQualifying | pkg/indicators/volatility.go:75-87 | the ranging loop over the day map, whatever order it visits the keys in, collects exactly the days with a positive range, each once |
| Volatility.Swap | pkg/indicators/volatility.go:100 | the exchange of two entries changes those two positions only and keeps the multiset |
| Volatility.SwapLatestInto | pkg/indicators/volatility.go:98-102 | one inner pass moves the most recent of the remaining entries to position i, extending the sorted prefix and keeping the multiset |
| Volatility.SwapKeepsOrder | pkg/indicators/volatility.go:99-101 | exchanging a more recent entry into position i keeps the sorted prefix and makes position i the latest seen so far |
| Volatility.NewSortedPrefix | pkg/indicators/volatility.go:98-102 | once position i holds the latest of the rest, the sorted prefix grows by one |
| Volatility.SortByDateDescending | pkg/indicators/volatility.go:97-103 | the exchange sort leaves a permutation of its input with dates in descending order |
| Volatility.SumFirstFive | pkg/indicators/volatility.go:106-114 | the total of the five most recent ranges |
| Volatility.CalculateVolatility5Days | pkg/indicators/volatility.go:13-117 | 0 for no klines or fewer than five qualifying days, otherwise the mean range of the five most recent days before the current one |
| Volatility.HeadIsLatest | pkg/indicators/volatility.go:97-103 | a date-descending arrangement of a set starts with the set's latest entry |
| Volatility.SortedIsNewest | pkg/indicators/volatility.go:97-108 | any date-descending arrangement of the collected entries is the same sequence, so the unspecified map order does not change the result |
| Volatility.SortedHead | pkg/indicators/volatility.go:97-103 | the first entry of a sorted arrangement is the latest, and the rest is a sorted arrangement of the remaining entries |
| Volatility.NewestStep | pkg/indicators/volatility.go:97-103 | the most-recent-first order puts the latest entry first, followed by the order of the rest |
| Volatility.SumNonNegative | pkg/indicators/volatility.go:111-114 | a sum of positive ranges is non-negative |
| Volatility.Volatility5DaysNonNegative | pkg/indicators/volatility.go:80-116 | only positive ranges are counted, so the average is never negative |
| Volatility.DaysOfKeys | pkg/indicators/volatility.go:37-66 | the day map has an entry exactly for each day strictly before the current one on which some kline falls |
| Volatility.DaysOfBounds | pkg/indicators/volatility.go:52-65 | each day's high bounds every high of that day's klines, and its low every low |
| Volatility.DaysOfAttained | pkg/indicators/volatility.go:52-65 | each day's high is the high of one of its klines, and its low the low of one |
| Interval.Atoi | pkg/types/interval.go:18-21 | the digits convert exactly when their value fits in 64 bits, and the value is then non-negative |
| Interval.UnitMinutes | pkg/types/interval.go:26-40 | seconds divide by 60, minutes stay, and every other unit multiplies by its unit's minutes |
| Interval.IntervalToMinutes | pkg/types/interval.go:11-46 | a result exactly when the text is digits plus one of `smhdwMy` and the digits fit in 64 bits |
| Interval.IntervalRoundTrip | pkg/types/interval.go:11-46 | a printed number followed by a unit parses back to that unit's minutes of the number |
| Interval.IntervalRejects | pkg/types/interval.go:12-16 | a text with a non-digit before its last character is rejected |
| Interval.IntervalExamples | pkg/types/interval.go:9-10 | "1h" is 60, "15m" is 15, "1d" is 1440, and "30s" is 0 minutes |
| Interval.ScaleByMinutes | pkg/types/interval.go:60-66 | the scaled period is always between 1 and the 64-bit maximum |
| Interval.ScalePeriod | pkg/types/interval.go:51-69 | a parse error passes through, and otherwise the period is scaled by 60 over the interval's minutes, at least 1 |
| Interval.TruncQuotient | pkg/types/interval.go:60-61 | truncating a real quotient of naturals gives the integer quotient |
| Interval.ScaleByMinutesValue | pkg/types/interval.go:60-66 | for a positive interval, the scaled period is ⌊period·60/minutes⌋, raised to 1 when that is 0 |
| Interval.ScalePeriodExample | pkg/types/interval.go:48-50 | 48 hours is 192 periods of 15 minutes and 48 of one hour, and a 30-second interval gives 1 |
| Interval.KlinesByMinutes | pkg/types/interval.go:81-92 | the kline count stays within the 64-bit range for any input |
| Interval.CalculateKlinesForDays | pkg/types/interval.go:74-95 | a parse error passes through, and otherwise the count is computed from the interval's minutes |
| Interval.KlinesByMinutesValue | pkg/types/interval.go:81-92 | for realistic inputs the count is ⌊1.1·max(1, ⌊days·1440/minutes⌋)⌋, and never below that base |
| Interval.KlinesForDaysExample | pkg/types/interval.go:74-95 | 7 days at 1h need 184 klines, and 1 day at 1d needs 1 |
| Types.DefaultConfig | pkg/types/config.go:34-63 | every MACD pair has its fast period below its slow one, and the CCI and RSI periods increase |
| AppConfig.OrString | internal/config/config.go:108-110 | an empty string takes the default and a set one is kept |
| AppConfig.OrInt | internal/config/config.go:115-117 | a zero takes the default and a non-zero value is kept |
| AppConfig.DefaultsFilled | internal/config/config.go:107-156 | after the defaults every covered string is non-empty, every covered port and the TTL are non-zero, and the base URL is the production endpoint |
| AppConfig.DefaultsKeepSetFields | internal/config/config.go:107-156 | fields that were set keep their values, uncovered fields are untouched, and only the base URL is overwritten |
| AppConfig.DefaultsIdempotent | internal/config/config.go:107-156 | applying the defaults twice is the same as applying them once |
| AppConfig.KeysSelected | internal/config/config.go:159-173 | the test key pair is chosen exactly when the environment is "test", the base URL is production either way, and nothing else changes |
| AppConfig.LoadedDefaultsToProduction | internal/config/config.go:88-92 | a loaded configuration without an environment is production and uses the production keys |
| AppConfig.Config.SetDefaults | internal/config/config.go:107-156 | the configuration afterwards is the defaulted form of the one before |
| AppConfig.Config.SetServiceDefaults | internal/config/config.go:139-155 | logging, server and cache get their defaults, and the other parts are unchanged |
| AppConfig.Config.SetDatabaseDefaults | internal/config/config.go:112-127 | the MySQL and Redis settings get their defaults, and the other parts are unchanged |
| AppConfig.Config.SelectApiKeys | internal/config/config.go:159-173 | the configuration afterwards has the key pair selected for its environment |
| Handler.DefaultQuery | internal/api/handler.go:30-31 | an absent parameter takes the default, and a present one, even empty, is kept |
| Handler.LimitOf | internal/api/handler.go:31-41 | the limit is the scanned value when that is positive, and 500 when the scan fails (a newline among the leading blanks, no digits, a value beyond 64 bits) or is not positive, so it is always at least 1 |
| Handler.LimitOfBlanks | internal/api/handler.go:38-41 | a limit of "\n200" or "\r\n200" falls back to 500, while a space or a vertical tab before 200 is skipped and gives 200 |
| Handler.LimitExamples | internal/api/handler.go:31-41 | no limit, "abc" and "-5" give 500, and "200" gives 200 |
| Handler.LimitOfScanned | internal/api/handler.go:38-41 | a limit that is the printed form of a 64-bit `v` gives `v` when positive and 500 otherwise |
| Handler.ValidationError | internal/api/handler.go:85-105 | a configuration passes exactly when all CCI, first MACD, RSI, Bollinger and envelope values are positive, and a bad CCI period reports the CCI message first |
| Handler.DefaultConfigAccepted | internal/api/handler.go:85-105 | the default configuration passes the check |
| Handler.SecondMacdUnchecked | internal/api/handler.go:90-93 | zeroing the second MACD set of an accepted configuration leaves it accepted |
| Handler.AcceptedConfigPush | internal/api/handler.go:85-105 | an accepted configuration, given enough klines and a parsable interval, never makes a push use a period below 1 |
| Handler.UpdateRejection | internal/api/handler.go:67-105 | every rejection is a 400, and the update goes ahead exactly when the service exists, the symbol is non-empty, the body binds and the check passes |
| Handler.UpdateConfig | internal/api/handler.go:67-113 | a rejected request is answered with its 400 and changes nothing; an accepted one stores the configuration under the symbol and answers 200, or 500 when saving fails |
| Handler.GetConfig | internal/api/handler.go:54-63 | 400 without a service; otherwise 200 with the stored configuration for the symbol, or the defaults when there is none |
| Handler.GetIndicators | internal/api/handler.go:28-50 | 400 without a symbol; otherwise a cached result when the cache holds one, else 200 with the computed result or 500 on its error |
| IndexModel.Reverse | web/static/app-refactored.js:95 | a reversed copy has the length of its source |
| IndexModel.ReverseAt | web/static/chart-manager.js:694-695 | display index d of a reversed series holds source index len−1−d |
| IndexModel.ReverseReverse | internal/service/realtime_service.go:362-369 | the service's reversal and the browser's reversal cancel out |
| IndexModel.MirrorInvolution | web/static/chart-manager.js:694-695 | the map d ↦ len−1−d keeps indices in range and is its own inverse |
| IndexModel.ReverseAligned | web/static/app-refactored.js:115-117 | two series of equal length, both reversed, show entries of the same source index at every display position |
| Decimal.NatToString | internal/service/realtime_service.go:404-406 | the text of a natural number is non-empty, all digits, and has no leading zero |
| Decimal.IntToString | internal/service/realtime_service.go:404-406 | the text is non-empty and starts with '-' exactly for negative numbers |
| Decimal.NatToStringRoundTrip | internal/service/realtime_service.go:404-406 | the digits of a printed natural number read back as that number |
| Decimal.IntToStringInjective | internal/service/realtime_service.go:404-406 | two integers with the same text are equal, so distinct periods make distinct map keys |
| Decimal.GoScanInt | internal/api/handler.go:39 | a successful scan skipped Go's blanks without meeting a newline, read a sign and digits, and lies within the 64-bit range; a newline among the leading blanks always fails |
| Decimal.SkipGoBlanks | internal/api/handler.go:39 | what is left after the leading blanks does not start with one of Go's space runes |
| Decimal.SkipGoBlanksFails | internal/api/handler.go:39 | blank skipping fails exactly when a newline comes before the first character that is not a blank |
| Decimal.SignedPrefixOfIntToString | internal/api/handler.go:39 | the `%d` text of any integer reads back, sign and digits, as that integer |
| Decimal.GoScanIntOfIntToString | internal/api/handler.go:39 | scanning the `%d` text of a 64-bit integer gives that integer back |
| Decimal.SkipJsWhiteSpace | web/static/app-refactored.js:284 | what `parseInt` reads after trimming does not start with JavaScript white space or a line terminator |
| Decimal.JsParseIntOfIntToString | web/static/app-refactored.js:284 | `parseInt` reads a key written with `%d` back as the same number |
| Decimal.SeparatedUnique | internal/service/realtime_service.go:419-420 | joined with a separator that the first part lacks, the parts split back uniquely |
| JsMath.JsRound | web/static/app-refactored.js:603 | the result is within one half of the value, and halves round up |
| JsMath.GoTrunc | internal/service/realtime_service.go:563 | truncation toward zero stays within one of the value, on its side of zero |
| JsMath.GoDiv | pkg/types/interval.go:84 | for a non-negative dividend and positive divisor it is the Euclidean quotient, and a negative dividend gives a quotient of at most 0 |
| JsMath.Wrap64 | pkg/types/interval.go:81 | wrapping stays within the 64-bit range and leaves values already in range unchanged |
| JsMath.GoFloatToInt | pkg/types/interval.go:61 | a value in the 64-bit range truncates toward zero, and any other value becomes the minimum `int` |
| ServiceTypes.ToValues | internal/service/realtime_service.go:421-430 | a nil MACD result gives three nil slices, and otherwise the line, signal line and histogram in place |
| ServiceTypes.MacdKeyInjective | internal/service/realtime_service.go:419-420 | two MACD keys are equal only for equal (fast, slow) pairs |
| ServiceTypes.NewestFirst | internal/service/realtime_service.go:357-369 | each filled column is the reversal of the klines' column, so index i holds kline len−1−i |
| ServiceTypes.HlccOfKlines | internal/service/indicator_service.go:81 | the typical price has one entry per kline |
| ServiceTypes.HlccOfKlinesAt | internal/service/indicator_service.go:68-81 | entry i of the typical price belongs to kline len−1−i |
| Zones.JsZone | web/static/app-refactored.js:576-604 | the zone is in −10..10; it is 0 exactly in the early-return cases, and otherwise at least 1 above the middle and at most −1 below it |
| Zones.JsZoneHalfAsymmetry | web/static/app-refactored.js:599-603 | a ratio of exactly 2.5 tenths is zone 3 above the middle but −2 below it |
| Zones.JsZoneAntisymmetric | web/static/app-refactored.js:593-603 | away from exact halves, the same distance below the middle gives the opposite zone |
| Zones.JsZoneExamples | web/static/app-refactored.js:565-569 | with middle 100 and upper 110, price 105 is zone 5 and price 80 is zone −10 |
| Zones.JsZoneRounds | web/static/app-refactored.js:593-603 | past the early returns the zone is the clamped tenths count, rounded, and negated before rounding below the middle |
| Zones.GoZone | internal/service/realtime_service.go:543-589 | the zone is in −10..10; it is 0 exactly when the middle is 0 or the price is on it, and otherwise in 1..10 above and −10..−1 below |
| Zones.GoZoneTenths | internal/service/realtime_service.go:554-588 | inside the bands the zone is the truncated tenths of the upper half-band above the middle and of the lower half-band below it, clamped |
| Zones.GoZoneOverflow | internal/service/realtime_service.go:562-569 | a ratio whose tenfold overflows an `int` gives zone 1 |
| Zones.ZonesDisagree | internal/service/realtime_service.go:543-589 | the formulas part: 104.6 is zone 4 against 5, an empty upper half-band is 10 against 0, and a lower side measured against the lower band is −2 against −5 |
| Zones.TruncNearRound | internal/service/realtime_service.go:563-569 | truncating then clamping and clamping then rounding a tenths count differ by at most one |
| Zones.SymmetricTenths | internal/service/realtime_service.go:556-579 | on symmetric bands with the price inside, the browser's tenths count is in 0..10 and equals the service's |
| Zones.ZonesWithinOne | internal/service/realtime_service.go:543-589 | on symmetric bands with the price inside, the service and browser zones differ by at most one |
| Realtime.TickOf | internal/service/realtime_service.go:285-295 | only the last kline changes: it closes at the price, its high and low widen to include it, and low ≤ close ≤ high; empty input stays empty |
| Realtime.ReplaceStable | internal/service/realtime_service.go:337-339 | fetching the same list again changes nothing |
| Realtime.ReplaceMakesProgress | internal/service/realtime_service.go:337-339 | a replacement list is longer or ends strictly later |
| Realtime.Scale | internal/service/realtime_service.go:384-391 | a parsable interval gives a period of at least 1, and an unparsable one keeps the period |
| Realtime.PushOf | internal/service/realtime_service.go:346-509 | nothing is pushed exactly for no klines; with a parsable interval the push crashes exactly when there are fewer klines than the scaled Bollinger or envelope period |
| Realtime.RealtimeService.constructor | internal/service/realtime_service.go:79-107 | the map holds the symbol's loaded configuration, or the defaults without a repository or when loading fails |
| Realtime.RealtimeService.UpdateConfig | internal/service/realtime_service.go:110-128 | the map entry is always written, and an error is reported exactly when a repository is attached and saving fails |
| Realtime.RealtimeService.GetConfig | internal/service/realtime_service.go:131-155 | the map entry if present; else the repository's value, which is cached; else the defaults, not cached |
| Realtime.RealtimeService.ApplyTick | internal/service/realtime_service.go:285-295 | the klines afterwards are the tick update of the klines before |
| Realtime.RealtimeService.ReplaceKlines | internal/service/realtime_service.go:335-340 | the klines are replaced exactly when the fetched list is longer or ends strictly later |
| Realtime.RealtimeService.CalculateAndPush | internal/service/realtime_service.go:346-509 | the outcome is the push determined by the klines, the symbol's configuration and the interval |
| Realtime.Snapshot | internal/service/realtime_service.go:356-497 | the data built is the snapshot of the klines under the configuration and periods |
| Realtime.BandsFor | internal/service/realtime_service.go:442-454 | both bands are the kernels' results, with the zone of the current price at index 0 |
| Realtime.CciMap | internal/service/realtime_service.go:397-406 | the map holds the CCI of each scaled period under its configured period's key |
| Realtime.RsiMap | internal/service/realtime_service.go:433-440 | the map holds the RSI of each scaled period under its configured period's key |
| Realtime.MacdFor | internal/service/realtime_service.go:416-417 | one MACD entry, all nil when its input is too short |
| Realtime.MacdMap | internal/service/realtime_service.go:409-430 | the map holds both MACD sets under their "fast_slow" keys |
| Realtime.BuildKlineData | internal/service/realtime_service.go:461-473 | the bars built are the klines newest first |
| Realtime.SnapshotNewestFirst | internal/service/realtime_service.go:452-497 | the price is the newest close, bar i is kline len−1−i, every band has one entry per kline, both zones are in −10..10 and read index 0, and the volatility is non-negative |
| Realtime.KlineDataNewestFirst | internal/service/realtime_service.go:462-473 | bar i of the snapshot is kline len−1−i |
| Realtime.PushNewestFirst | internal/service/realtime_service.go:352-497 | the same layout facts hold for every push that goes out |
| Realtime.PushCci | internal/service/realtime_service.go:397-406 | a CCI key is present exactly for a configured period, and its value is the CCI over that period scaled |
| Realtime.CciMapKeys | internal/service/realtime_service.go:402-406 | the same key facts for the CCI map itself |
| Realtime.PushRsi | internal/service/realtime_service.go:433-440 | an RSI key is present exactly for a configured period, and its value is the RSI over that period scaled |
| Realtime.RsiMapKeys | internal/service/realtime_service.go:437-440 | the same key facts for the RSI map itself |
| Realtime.PushMacd | internal/service/realtime_service.go:418-430 | a MACD key is present exactly for a configured pair; the second set wins a shared key, and otherwise each key holds its own set |
| Realtime.MacdMapKeys | internal/service/realtime_service.go:418-430 | the same key facts for the MACD map itself |
| Realtime.DefaultPeriodsHourly | internal/service/realtime_service.go:383-391 | on hourly klines the default periods stay unscaled |
| Realtime.DefaultPushHourly | internal/service/realtime_service.go:346-454 | with the defaults on hourly klines, a push goes out exactly when there are at least 24 klines |
| Realtime.PushAfterTick | internal/service/realtime_service.go:283-299 | after a tick, the next push reports the tick's price as the price and as its newest bar's close |
| IndicatorService.IndicatorService.constructor | internal/service/indicator_service.go:23-28 | a new service holds no stored results and knows whether Redis is up |
| IndicatorService.CacheKeyInjective | internal/service/indicator_service.go:51 | requests whose symbol and interval hold no ':' share a cache key only when symbol, interval and limit are all equal |
| IndicatorService.PeriodMapKeys | internal/service/indicator_service.go:86-89 | the map built by the period loop has a key exactly for each period |
| IndicatorService.PeriodMap | internal/service/indicator_service.go:86-89 | the loop's map is one write per period in order, later writes winning |
| IndicatorService.ComputeOf | internal/service/indicator_service.go:57-65 | a result exactly when the exchange answers with at least one kline |
| IndicatorService.ResultShape | internal/service/indicator_service.go:80-124 | the keys are exactly CCI "48", "72", "168", MACD "48_72", "72_168" and RSI "48", "72"; each series exists exactly when there are enough klines for its period; the price has one entry per kline |
| IndicatorService.CciMap | internal/service/indicator_service.go:84-89 | the CCI loop writes exactly the three fixed keys |
| IndicatorService.RsiMap | internal/service/indicator_service.go:109-114 | the RSI loop writes exactly the two fixed keys |
| IndicatorService.FixedMacdKeys | internal/service/indicator_service.go:97-102 | the fixed MACD keys are the ones `%d_%d` makes of their periods |
| IndicatorService.IndicatorService.GetIndicators | internal/service/indicator_service.go:49-130 | a cached result is returned unchanged; otherwise the computed result or error is returned, and a result is stored under the request's key when Redis is up and the write succeeds |
| IndicatorService.Compute | internal/service/indicator_service.go:67-124 | the computed result is the result of the klines |
| IndicatorService.RepeatedRequest | internal/service/indicator_service.go:51-55 | once a request has succeeded, repeating it returns the same result whatever the exchange says |
| ChartData.FromPush | internal/service/realtime_service.go:38-76 | the decoded snapshot carries the pushed bars and price, and both band objects with their zones |
| Series.Candles | web/static/app-refactored.js:95-96 | one candle per kline, and display index d is kline len−1−d as [open, close, low, high] |
| Series.Scalars | web/static/app-refactored.js:115-117 | display index d of a line is source index len−1−d |
| Series.OptScalars | web/static/app-refactored.js:213 | a null array draws nothing, and otherwise its reversal |
| Series.MainPanelSeries | web/static/app-refactored.js:93-194 | the candlestick comes first over the reversed klines, then the three Bollinger lines when that band exists, then the three envelope lines, each showing its source reversed, all on the panel's axis |
| Series.MacdSeries | web/static/app-refactored.js:207-236 | one MACD entry gives histogram bars, the MACD line and the signal line in that order, each its reversed array or empty |
| Series.MacdPanelSeries | web/static/app-refactored.js:199-275 | no MACD object draws nothing, and otherwise 0, 3 or 6 series on the panel's axis |
| Series.MacdFirstTwoOnly | web/static/app-refactored.js:203-239 | keys past the second never change the MACD panel |
| Series.MacdTwoEntries | web/static/app-refactored.js:205-271 | two MACD objects give their six series in key order, each reversing its source |
| Series.Insert | web/static/app-refactored.js:284 | inserting an entry adds exactly that entry |
| Series.SortByNumber | web/static/app-refactored.js:284 | the sort is a permutation of the entries |
| Series.InsertAscending | web/static/app-refactored.js:284 | inserting a numeric key into an ascending list keeps it ascending |
| Series.SortAscending | web/static/app-refactored.js:284 | with every key numeric, the sort orders the entries ascending by `parseInt` and is a permutation |
| Series.DecimalKeysSortAscending | web/static/app-refactored.js:284 | keys written by `%d` are all numeric, so the sorted keys are in strictly increasing numeric order |
| Series.LineAt | web/static/app-refactored.js:288-297 | the line at sorted position j is on the panel's axis, coloured palette[j mod length], and shows its values reversed |
| Series.IndicatorSeriesOf | web/static/app-refactored.js:286-299 | at most one line per key, all lines on the panel's axis |
| Series.IndicatorPanelOf | web/static/app-refactored.js:283-302 | no indicator object draws nothing, and every line is on the panel's axis |
| Series.IndicatorPanelSeries | web/static/app-refactored.js:280-303 | the series pushed are the indicator panel of the sorted entries |
| Series.IndicatorSeriesAllDrawn | web/static/app-refactored.js:286-299 | with every value an array, line j is the j-th sorted key, coloured palette[j mod length], showing its array reversed |
| Series.SkippedKeyKeepsColour | web/static/app-refactored.js:286-295 | a key whose value is null is skipped and the next key keeps the colour of its own position |
| Series.MaxHigh | web/static/app-refactored.js:451-454 | the largest high bounds every high and is one of them |
| Series.MinLow | web/static/app-refactored.js:451-454 | the smallest low bounds every low and is one of them |
| Series.PriceRangeOf | web/static/app-refactored.js:456-470 | the range's minimum is never negative |
| Series.CalculatePriceRange | web/static/app-refactored.js:447-471 | the computed range is the padded range of the candles |
| Series.Extremes | web/static/app-refactored.js:448-454 | the loop finds the largest high and the smallest low |
| Series.ExtremesStep | web/static/app-refactored.js:452-453 | one more candle moves an extreme only when it beats it |
| Series.PriceRangeContains | web/static/app-refactored.js:447-471 | with positive, well-formed candles every candle lies inside the range |
| Series.FlatRangeWidened | web/static/app-refactored.js:459-460 | a range under 1% of the low still gets an axis at least 4% of the low tall |
| Surface.Texts | web/static/chart-manager.js:503-504 | the kept overlays are text overlays of the graphic list, no more of them than there were |
| Surface.LineOverlays | web/static/app-refactored.js:549-550 | the kept overlays are line overlays of the graphic list, no more of them than there were |
| Surface.TextsAppend | web/static/chart-manager.js:504-508 | the text filter distributes over concatenation |
| Surface.LinesAppend | web/static/app-refactored.js:550-553 | the line filter distributes over concatenation |
| Surface.FiltersSplit | web/static/chart-manager.js:504 | the two filters split a graphic list: their sizes add up to its size, each is idempotent, and neither passes what the other kept |
| Surface.GridTop | web/static/chart-manager.js:468-469 | a pixel top is read as is, a percentage top as that share of the chart height |
| Surface.GridBottom | web/static/chart-manager.js:470-473 | a percentage bottom is measured up from the foot, otherwise top plus a truthy height, otherwise the chart height |
| Surface.TimeAxis | web/static/chart-manager.js:190-199 | one label per candle, display position d showing the timestamp label of candle len-1-d; the empty label is never chosen, because the back end writes every time as a non-empty string |
| Surface.Chart.constructor | web/static/chart-manager.js:30-31 | a fresh chart has no grids, series, axes, price range, graphic or tooltip |
| Surface.PanelOf | web/static/chart-manager.js:337-344 | the panel keeps the config's id and factory, takes the given index, and its height share falls back to 0.25 when the config's is falsy |
| Surface.PanelSeriesOf | web/static/chart-manager.js:352-357 | every series a panel makes is bound to the grid index it is given |
| Surface.CreateSeries | web/static/chart-manager.js:352-357 | createSeries returns the panel's series, each on the given grid, and none without a factory |
| ChartLayout.ChartHeight | web/static/chart-manager.js:86 | the container's height, 800 when there is no container |
| ChartLayout.CalculateGridConfig | web/static/chart-manager.js:84-168 | one grid, x-axis and y-axis per panel: tops start at 1% and advance by each rounded panel height plus a 20 px gap, only the last panel gets a bottom margin of 8% and a visible axis line with labels |
| ChartLayout.Boxes | web/static/chart-manager.js:465-473 | the grid options the crosshair reads back, one per layout grid |
| ChartLayout.TopsIncrease | web/static/chart-manager.js:93-108 | with non-negative heights an earlier panel ends at least a gap above every later panel's top |
| ChartLayout.CrosshairOverLayout | web/static/chart-manager.js:460-477 | over the computed layout the crosshair runs from the first panel's top to the last panel's top plus height |
| ChartLayout.DefaultPanels | web/static/app-refactored.js:56-88 | the page adds four panels |
| ChartLayout.DefaultLayout | web/static/chart-manager.js:84-168 | on an 800 px chart the four default panels sit at 8, 388, 568 and 708 px with heights 360, 160, 120 and 120, and the last one overruns the chart to 828 px |
| ChartLayout.AllSeries | web/static/chart-manager.js:206-221 | every series of the first n panels is bound to one of the first n grids |
| ChartLayout.AllSeriesStep | web/static/chart-manager.js:211-213 | one more panel appends exactly that panel's series |
| ChartLayout.AllSeriesOfFour | web/static/chart-manager.js:206-221 | four panels draw their series in panel order |
| ChartLayout.PanelsData | web/static/chart-manager.js:206-221 | the loop collects every panel's series in panel order and one copy of the time axis per panel |
| ChartLayout.ChartManager.constructor | web/static/chart-manager.js:8-60 | a new manager has no panels, shows grid lines, holds no data, and owns fresh crosshair and tooltip managers over the same chart |
| ChartLayout.ChartManager.AddPanel | web/static/chart-manager.js:71-79 | the new panel joins at the next index, the layout is recomputed and nothing else changes |
| ChartLayout.ChartManager.UpdateGridConfig | web/static/chart-manager.js:173-180 | the layout is the one of the current panels and container and the chart's grids follow it; nothing else changes |
| ChartLayout.ChartManager.Resize | web/static/chart-manager.js:295-298 | after a resize the chart height and the layout follow the new container and the panels are kept |
| ChartLayout.ChartManager.UpdateData | web/static/chart-manager.js:186-288 | the data is kept for the tooltip, every panel's series is drawn in panel order, each x-axis gets the reversed time axis, and the crosshair learns the panels |
| ChartLayout.ChartManager.ToggleGridLines | web/static/chart-manager.js:306-315 | every y-axis takes the new split-line setting, grids and x-axes unchanged |
| Crosshair.FirstHitFrom | web/static/chart-manager.js:402-416 | no hit exactly when no grid from g on converts the pointer to a non-negative number; a hit is the rounded index of the first grid that does |
| Crosshair.Probe | web/static/chart-manager.js:399-416 | the loop returns -1 when no grid is hit, otherwise the index read at the first grid hit |
| Crosshair.MinTop | web/static/chart-manager.js:461-477 | there is a top exactly when some panel with a grid option is read |
| Crosshair.MaxBottom | web/static/chart-manager.js:461-477 | there is a bottom exactly when some panel with a grid option is read |
| Crosshair.MinTopIsLeast | web/static/chart-manager.js:475 | the top found is at or above every grid read, and is one of their tops |
| Crosshair.MaxBottomIsGreatest | web/static/chart-manager.js:476 | the bottom found is at or below every grid read, and is one of their bottoms |
| Crosshair.CrosshairOverlays | web/static/chart-manager.js:480-508 | the graphic after drawing is the line from the smallest top to the largest bottom, then the earlier texts in order |
| Crosshair.Extent | web/static/chart-manager.js:461-477 | the loop over the panels finds exactly the smallest top and the largest bottom |
| Crosshair.ExtentStep | web/static/chart-manager.js:464-477 | one more grid moves the top only up and the bottom only down, to that grid's own |
| Crosshair.MissingGridsChangeNothing | web/static/chart-manager.js:465-466 | panels whose grid option is missing leave the extent as it is |
| Crosshair.CrosshairSpansPanels | web/static/chart-manager.js:460-490 | the line starts at or above and ends at or below every panel that has a grid |
| Crosshair.MoveThenOutKeepsTexts | web/static/chart-manager.js:501-527 | drawing the crosshair keeps the texts that were there and adds only its own line, so leaving restores the texts |
| Crosshair.CrosshairIdempotent | web/static/chart-manager.js:480-508 | a second crosshair replaces the first: the graphic is the same as drawing only the second |
| Crosshair.CrosshairManager.constructor | web/static/chart-manager.js:365-371 | a new manager has no panels, no current index and no handlers bound |
| Crosshair.CrosshairManager.UpdatePanels | web/static/chart-manager.js:540-547 | the panels are replaced and the handlers are bound once panels have arrived |
| Crosshair.CrosshairManager.HandleMouseMove | web/static/chart-manager.js:397-441 | with no grid hit nothing changes; with a hit the index is recorded, the crosshair is drawn there and the tooltip is shown at that index |
| Crosshair.CrosshairManager.DrawCrosshair | web/static/chart-manager.js:446-512 | when the first grid's pixel x is NaN nothing changes, otherwise the graphic becomes the crosshair line plus the earlier texts |
| Crosshair.CrosshairManager.HandleMouseOut | web/static/chart-manager.js:517-535 | the graphic keeps only its texts, the tooltip is hidden and the current index is -1 |
| Tooltip.Position | web/static/chart-manager.js:569-588 | 10 px right of and below the pointer, each coordinate flipped to the other side when the box would overflow the view |
| Tooltip.PositionClearsPointer | web/static/chart-manager.js:576-585 | the box never covers the pointer: it keeps a 10 px distance on both axes |
| Tooltip.PositionInView | web/static/chart-manager.js:576-581 | with room on one side the box lies inside the view horizontally |
| Tooltip.GroupOf | web/static/chart-manager.js:625-646 | a series lands in group 0 to 3: its own x-axis index when that is in range, otherwise the main group |
| Tooltip.RowOf | web/static/chart-manager.js:629-655 | a row shows the value at the index, the series name or `Series <idx>`, and the line colour, then the item colour, then grey |
| Tooltip.RowsOf | web/static/chart-manager.js:624-658 | a group has at most one row per series |
| Tooltip.RowsOfExactly | web/static/chart-manager.js:624-658 | a row is in a group exactly when it is the row of a series of that group with a value at the index |
| Tooltip.RowsPartition | web/static/chart-manager.js:646-655 | every series with a value at the index is shown in exactly one group |
| Tooltip.ZoneLineOf | web/static/chart-manager.js:678-737 | the zone section appears only under main-panel rows with both bands and a source index len-1-d inside the Bollinger line, and its zones lie in -10..10 |
| Tooltip.GroupsOf | web/static/chart-manager.js:665-742 | the four groups in order 0 to 3 |
| Tooltip.FormatTooltip | web/static/chart-manager.js:602-746 | an empty params list gives nothing; otherwise the tip at that index holds each group's rows and the zone section for the current data |
| Tooltip.ZoneLineAligned | web/static/chart-manager.js:695-702 | with bands as long as the kline list the kline read never misses, the section is shown exactly at the displayed indices, and at the newest candle it uses the live price against source index 0 |
| Tooltip.TooltipManager.constructor | web/static/chart-manager.js:555-558 | no data is held at first |
| Tooltip.TooltipManager.UpdateData | web/static/chart-manager.js:751-753 | the latest snapshot is kept |
| Dashboard.BubbleZones | web/static/app-refactored.js:476-512 | zones are computed exactly when both bands carry a zone field, from the newest close against index 0 of each band, and lie in -10..10 |
| Dashboard.BubbleKeepsLines | web/static/app-refactored.js:514-559 | without zones or with a NaN pixel the graphic is unchanged; otherwise every line is kept and the bubble with both zones is the only text |
| Dashboard.BubbleOnlyText | web/static/app-refactored.js:548-553 | after the bubble is drawn it is the only text overlay |
| Dashboard.BubbleKeepsEveryLine | web/static/app-refactored.js:548-553 | drawing the bubble keeps exactly the earlier lines |
| Dashboard.BubbleAndCrosshairCommute | web/static/chart-manager.js:501-508 | crosshair after bubble and bubble after crosshair both end with the line followed by the bubble |
| Dashboard.PushedCandlesInExchangeOrder | web/static/app-refactored.js:95-96 | for a pushed snapshot the back end's reversal and the page's reversal cancel: display index i shows exchange kline i in the candles and in the time axis |
| Dashboard.NewestFirstDisplay | web/static/chart-manager.js:190-199 | bars laid out newest first are labelled oldest first |
| Dashboard.PushedTooltipMatchesBubble | web/static/chart-manager.js:695-727 | for a pushed snapshot the tooltip's zones at the newest candle equal the bubble's |
| Dashboard.TooltipMatchesBubble | web/static/app-refactored.js:498-512 | when the snapshot's price is its newest close and the bands cover every candle, tooltip and bubble show the same zones |
| Dashboard.Page.constructor | web/static/app-refactored.js:14-20 | the page gets a fresh chart manager holding the four default panels, no data and grid lines shown |
| Dashboard.Page.SetupChartPanels | web/static/app-refactored.js:56-88 | the four panels main, MACD, CCI and RSI are added in that order and the layout follows them |
| Dashboard.Page.UpdateUnifiedChart | web/static/app-refactored.js:387-442 | a missing or empty snapshot changes nothing; otherwise it is kept for the tooltip, every panel is redrawn, the price axis gets the padded range of the candles and the bubble is redrawn |
| Dashboard.Page.UpdateZoneBubbles | web/static/app-refactored.js:476-560 | the graphic becomes the bubble graphic of the previous one; series, axes and tooltip are untouched |
| Dashboard.Page.ToggleGridLines | web/static/app-refactored.js:609-616 | the page's flag and every y-axis take the new setting |
| LegacyChart.LegacyGrids | web/static/app.js:43-74 | four grid bands |
| LegacyChart.LegacyBandsDisjoint | web/static/app.js:43-74 | on a chart of positive height the four bands stack top to bottom without overlap between 1% and 92% of the height |
| LegacyChart.LegacyMatchesRefactored | web/static/app.js:476-722 | the legacy page draws the same series as the refactored page's four default panels |
| LegacyChart.FourPanels | web/static/app.js:476-722 | any four panels with the main, MACD, CCI and RSI factories in order draw the legacy series |
| LegacyChart.LegacyCalculatePriceRange | web/static/app.js:893-921 | no candles give the range 0..0, otherwise the padded range with a non-negative minimum |
| LegacyChart.LegacyLines | web/static/app.js:968-1013 | at most one line per band, all of them lines |
| LegacyChart.LegacyLinesPerBand | web/static/app.js:968-1013 | when every band converts there is exactly one line per band, each spanning only its own band |
| LegacyChart.LegacyMoveDropsTexts | web/static/app.js:1018-1021 | the legacy crosshair leaves no text overlay |
| LegacyChart.LineOverlaysKeepsLines | web/static/app-refactored.js:550 | a list of lines passes the line filter unchanged |
| LegacyChart.LegacyPage.constructor | web/static/app.js:36-75 | the chart gets the four legacy bands and no series |
| LegacyChart.LegacyPage.UpdateUnifiedChart | web/static/app.js:476-722 | a missing or empty snapshot changes nothing; otherwise the four panels' series, the reversed time axis on all four x-axes and the padded price range |
| LegacyChart.LegacyPage.MouseMove | web/static/app.js:929-1031 | with no hit nothing changes; with a hit the graphic is replaced by the band lines at that index and the tooltip is shown there |
| LegacyChart.LegacyPage.MouseOut | web/static/app.js:1033-1040 | no overlays and no tooltip |
| ConfigPanel.ConfigJsonFields | pkg/types/config.go:4-31 | the object written for a configuration holds each field under its JSON tag and nothing else |
| ConfigPanel.CciAndFirstMacdFields | pkg/types/config.go:6-13 | the CCI and first MACD fields sit under their tags |
| ConfigPanel.SecondMacdFields | pkg/types/config.go:14-18 | the second MACD fields and the two scale factors sit under their tags |
| ConfigPanel.RsiAndBandFields | pkg/types/config.go:21-30 | the RSI and band fields sit under their tags |
| ConfigPanel.BindConfigJson | internal/api/handler.go:79-83 | binding the object the back end writes gives back the same configuration when its ints fit in 64 bits, as a Go configuration's always do, and fails otherwise |
| ConfigPanel.BindFields | internal/api/handler.go:79-83 | any object whose every tag holds the field of a configuration binds to that configuration exactly when its ints fit in 64 bits, and fails otherwise |
| ConfigPanel.BindAgrees | internal/api/handler.go:79-83 | an object whose int fields are accepted exactly when a configuration's fit in 64 bits, and whose fields all hold that configuration's values, binds to it when they fit and fails otherwise |
| ConfigPanel.IntField | internal/api/handler.go:80 | a whole number under an int tag binds as itself, and is accepted exactly when it fits in 64 bits |
| ConfigPanel.FallbacksAreDefaults | web/static/app.js:1063-1082 | with an empty object both pages show exactly the back end's default configuration |
| ConfigPanel.InputsShowConfig | web/static/app.js:1063-1082 | the original page shows a loaded configuration field for field, provided none of its values is zero |
| ConfigPanel.RefactoredMacdInputsFixed | web/static/app-refactored.js:646-651 | the refactored page's six MACD boxes show their fallbacks whatever configuration was loaded |
| ConfigPanel.RefactoredInputsMisreport | web/static/app-refactored.js:646 | a loaded fast MACD period of 12 is shown as 12 by the original page and as 48 by the refactored one |
| ConfigPanel.MergedBind | web/static/app.js:1097-1132 | the original page's body binds to the loaded configuration with the applied panel's fields taken from the boxes when every int fits in 64 bits, and fails otherwise; from a loaded configuration that fits, it binds exactly when the panel's int boxes fit |
| ConfigPanel.MergedBindMain | web/static/app.js:1104-1108 | the main panel's body binds with the band periods and deviations replaced when every int fits in 64 bits, and fails otherwise |
| ConfigPanel.MergedBindMacd | web/static/app.js:1109-1115 | the MACD panel's body binds with the six MACD periods replaced when every int fits in 64 bits, and fails otherwise |
| ConfigPanel.MacdBodyFields | web/static/app.js:1109-1115 | the MACD body replaces the six MACD properties and keeps every other |
| ConfigPanel.MergedBindCci | web/static/app.js:1116-1119 | the CCI panel's body binds with the three CCI periods replaced when every int fits in 64 bits, and fails otherwise |
| ConfigPanel.MergedBindRsi | web/static/app.js:1120-1122 | the RSI panel's body binds with the two RSI periods replaced when every int fits in 64 bits, and fails otherwise |
| ConfigPanel.MainBodyFields | web/static/app.js:1104-1108 | the main body replaces the band properties and keeps every other |
| ConfigPanel.CciBodyFields | web/static/app.js:1116-1119 | the CCI body replaces the three CCI properties and keeps every other |
| ConfigPanel.RsiBodyFields | web/static/app.js:1120-1122 | the RSI body replaces the two RSI properties and keeps every other |
| ConfigPanel.MergedBindParsed | web/static/app.js:1105 | a parsed box binds to its truncation, and is accepted exactly when that fits in 64 bits |
| ConfigPanel.MergedApplyAccepted | web/static/app.js:1097-1156 | from an accepted configuration the original page's update is accepted exactly when every int fits in 64 bits and the applied panel's checked fields are positive; from a loaded configuration that fits, exactly when the panel's int boxes fit and are positive |
| ConfigPanel.RefactoredApplyAlwaysRejected | web/static/app-refactored.js:680-711 | the refactored page's body leaves other panels' fields at zero, so the back end rejects every update |

## Left out

- Network and persistence are left out:
  - HTTP calls to the exchange, its websocket, Redis get/set, the SQL configuration repository and viper's YAML `Load`;
  - the browser's `fetch` and WebSocket connect/reconnect.
  - In their place the model takes as parameters what they would return: fetched klines, the stored configuration, a save failure, the Redis client's presence.
- `RealtimeService.UpdateSymbolAndInterval` and `Start` are left out. They only fetch the initial klines over the network, reset state under a lock and start goroutines.
- Goroutines, tickers, channels, the RWMutex and subscriber fan-out are left out. A tick, a refetch and a push are each one method call, with no interleaving.
- `setTimeout` is left out: the 100 ms delay before the zone bubble and the 10 ms delay before the tooltip are modelled as immediate.
- Floating point is left out. Numbers are exact reals, so IEEE-754 rounding in `60.0 / minutes`, `float*1.1` and the kernels' sums is not captured. `math.Sqrt` is an uninterpreted parameter, required non-negative only where a lemma needs it.
- Text formatting is left out: `toFixed`, `toLocaleString`, timestamp formatting (a time label is kept abstract per candle), the tooltip's HTML, colours other than the fallback chain, and CSS.
- ECharts' own behaviour is left out. `setOption` on `graphic` is modelled as replacing the overlay list, not as ECharts' merge by id. The series list is likewise assigned whole, although web/static/app.js:885-890 calls `setOption` with `notMerge: false`, which merges the new series into the ones already drawn. dataZoom, `resize`, the y-axis style object and the axis-pointer action are also left out. `convertFromPixel` and `convertToPixel` are uninterpreted function parameters.
- DOM work is left out:
  - the volatility read-out;
  - `showConfig`;
  - the status line;
  - reading the input boxes, which are a `Form` of numbers already read.
- Go's JSON encoder orders map keys sorted, and JavaScript's `Object.keys` follows insertion order for non-integer keys. The model takes the key order of each parsed map as a parameter, with a proof that it enumerates the map.
- A Bollinger or envelope object whose lines are `null` is left out. The Go service sends all three lines or none, so a snapshot's bands are `Option`al as a whole.
- `updateUnifiedChart`'s `!data.klines` check is folded into the empty-snapshot case, because a parsed snapshot always has a kline list.
- Malformed numeric input strings are left out: `parseInt` and `parseFloat` are read on values that are already numbers or NaN.
- The Go kernels index out of range (a run-time panic) for a period below 1. The kernel methods require period ≥ 1. `calculateAndPush` models that panic as the explicit `Crash` outcome instead of excluding it.
- `Interval.CalculateKlinesForDays` excludes a zero-minute interval such as "30s". The source divides by zero there.
- `Interval.ScaleByMinutes`: on a zero-minute interval the infinite quotient converts to the minimum `int` (the amd64 result) and is then raised to 1. The behaviour of other architectures is not modelled.
- The wall-clock `Timestamp` of `RealtimeData` and `IndicatorResult` is left out (internal/service/realtime_service.go:41,478 and internal/service/indicator_service.go:34,119 set it from `time.Now()`). The clock is not modelled, and the page never reads the field.
- Decimal.JsParseInt: reads base ten only. Without a radix, `parseInt` reads a `0x` prefix as hexadecimal; the keys it reads are written by Go with `%d` and never carry one.
- ConfigPanel.IntegralValue: box values are exact here. In JavaScript they are doubles, so a box above 2^53 is written rounded: 2^63 − 1 becomes 9223372036854775808, which the back end refuses, while the model accepts it.
- Volatility: the millisecond timestamp's UTC day is floor division by 86 400 000. `time.Time` and time zones are not modelled.
- `Tooltip.RowOf` keeps the shown value as data and not as the `toFixed(4)` string, so two different numbers that print alike are different rows.
- `AppConfig.Config.constructor` stands for viper's `Unmarshal` of an already-read file: the settings are given, not parsed from YAML.
- `IndicatorService.IndicatorService.constructor` starts with an empty cache. Redis entries left over from an earlier process, and the cache TTL's expiry, are not modelled.

## Findings

| source | as written | input that shows it | evidently intended | confidence | as-written member | corrected member |
|---|---|---|---|---|---|---|
| web/static/app-refactored.js:646-651 | `updateConfigInputs` reads the MACD values under `macd1_fast`, `macd1_slow`, … The back end writes `macd_fast1`, `macd_slow1`, … so every MACD box shows its fallback. | a loaded configuration with `macd_fast1` = 12: the box shows 48 | show the loaded MACD values, as app.js:1069-1074 does | high (not executed) | ConfigPanel.RefactoredInputsMisreport | ConfigPanel.InputsShowConfig |
| web/static/app-refactored.js:680-711 | `applyConfig` posts an object with only the applied panel's fields, and the MACD ones under unknown names. The back end binds every missing field as 0 and rejects the update. | applying the CCI panel with periods 48/72/168: the MACD fields bind as 0 and POST /api/config answers 400 | start from the loaded configuration and replace the panel's fields, as app.js:1102-1123 does | high (not executed) | ConfigPanel.RefactoredApplyAlwaysRejected | ConfigPanel.MergedApplyAccepted |
