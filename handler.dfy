/** The HTTP handlers (internal/api/handler.go): query parameters, the
    configuration check, and the status each request ends with. A query
    parameter is None when absent from the URL; Gin's `DefaultQuery`
    substitutes its default only then, so a parameter given empty stays
    empty. The JSON body binding is a parameter (`body`). */
module Handler {
  import opened Wrappers
  import opened Types
  import opened ServiceTypes
  import Decimal
  import Interval
  import Realtime
  import IndicatorService

  const StatusOK := 200
  const StatusBadRequest := 400
  const StatusInternalServerError := 500

  datatype Body =
    | Message(error: string)
    | Indicators(result: IndicatorResult)
    | Config(config: IndicatorConfig)
    | Updated(symbol: string, config: IndicatorConfig)

  datatype Response = Response(status: int, body: Body)

  /** `c.DefaultQuery(name, default)`. */
  function DefaultQuery(q: Option<string>, default: string): (v: string)
    ensures q.None? ==> v == default
    ensures q.Some? ==> v == q.value
  {
    match q
    case None => default
    case Some(s) => s
  }

  /** The limit of GET /api/indicators: the `%d` scan of the parameter
      (default "500"), replaced by 500 when the scan fails or gives a
      value that is not positive. */
  function LimitOf(limitQ: Option<string>): (limit: int)
    ensures 1 <= limit <= Decimal.MaxInt64
    ensures match Decimal.GoScanInt(DefaultQuery(limitQ, "500"))
            case Some(v) => limit == (if v > 0 then v else 500)
            case None => limit == 500
  {
    match Decimal.GoScanInt(DefaultQuery(limitQ, "500"))
    case Some(v) => if v <= 0 then 500 else v
    case None => 500
  }

  lemma LimitExamples()
    ensures LimitOf(None) == 500
    ensures LimitOf(Some("200")) == 200
    ensures LimitOf(Some("abc")) == 500
    ensures LimitOf(Some("-5")) == 500
  {
    LimitOfScanned(None, 500);
    LimitOfScanned(Some("200"), 200);
    LimitOfScanned(Some("-5"), -5);
    LimitOfLetters();
  }

  /** A limit that scans as `v` gives `v` when positive and 500 otherwise. */
  lemma LimitOfScanned(limitQ: Option<string>, v: int)
    requires Decimal.IntToString(v) == DefaultQuery(limitQ, "500") && Decimal.MinInt64 <= v <= Decimal.MaxInt64
    ensures LimitOf(limitQ) == if v > 0 then v else 500
  {
    Decimal.GoScanIntOfIntToString(v);
  }

  lemma LimitOfLetters()
    ensures LimitOf(Some("abc")) == 500
  {
    assert Decimal.SkipGoBlanks("abc") == Some("abc");
  }

  /** `fmt.Sscanf` stops at a newline among the leading blanks, so the
      limit falls back to 500, while other blanks before the digits (a
      space, a vertical tab) are skipped. */
  lemma LimitOfBlanks()
    ensures LimitOf(Some("\n200")) == 500
    ensures LimitOf(Some("\r\n200")) == 500
    ensures LimitOf(Some("\U{000B}200")) == 200
    ensures LimitOf(Some(" 200")) == 200
  {
    assert Decimal.SkipGoBlanks("\r\n200") == Decimal.SkipGoBlanks("\n200");
    assert Decimal.SkipGoBlanks("\U{000B}200") == Some("200");
    assert Decimal.SkipGoBlanks(" 200") == Some("200");
    Decimal.GoScanIntOfIntToString(200);
    assert Decimal.IntToString(200) == "200";
  }

  /** The configuration check of POST /api/config: the message of the
      first group with a value that is not positive, in the order CCI,
      MACD set 1, RSI, Bollinger, envelope. MACD set 2 and the N1/N2
      factors are not checked. */
  function ValidationError(c: IndicatorConfig): (e: Option<string>)
    ensures e.None? <==>
              c.cciPeriod1 > 0 && c.cciPeriod2 > 0 && c.cciPeriod3 > 0 &&
              c.macdFast1 > 0 && c.macdSlow1 > 0 && c.macdSignal1 > 0 &&
              c.rsiPeriod1 > 0 && c.rsiPeriod2 > 0 &&
              c.bollPeriod > 0 && c.bollDeviation > 0.0 &&
              c.envPeriod > 0 && c.envDeviation > 0.0
    ensures (c.cciPeriod1 <= 0 || c.cciPeriod2 <= 0 || c.cciPeriod3 <= 0) ==> e == Some("CCI periods must be positive")
  {
    if c.cciPeriod1 <= 0 || c.cciPeriod2 <= 0 || c.cciPeriod3 <= 0 then Some("CCI periods must be positive")
    else if c.macdFast1 <= 0 || c.macdSlow1 <= 0 || c.macdSignal1 <= 0 then Some("MACD parameters must be positive")
    else if c.rsiPeriod1 <= 0 || c.rsiPeriod2 <= 0 then Some("RSI periods must be positive")
    else if c.bollPeriod <= 0 || c.bollDeviation <= 0.0 then Some("Bollinger parameters must be positive")
    else if c.envPeriod <= 0 || c.envDeviation <= 0.0 then Some("envelope parameters must be positive")
    else None
  }

  /** The defaults pass the check. */
  lemma DefaultConfigAccepted()
    ensures ValidationError(DefaultConfig()).None?
  {
  }

  /** The check leaves MACD set 2 alone: a configuration whose second
      signal period is 0 is accepted. */
  lemma SecondMacdUnchecked(c: IndicatorConfig)
    requires ValidationError(c).None?
    ensures ValidationError(c.(macdFast2 := 0, macdSlow2 := 0, macdSignal2 := 0)).None?
  {
  }

  /** An accepted configuration never makes a push panic through a period
      below 1 when the interval parses; when it does not parse, only MACD
      set 2 (unchecked) and a shortage of klines can. */
  lemma AcceptedConfigPush(c: IndicatorConfig, interval: string, n: int)
    requires ValidationError(c).None?
    requires n >= Realtime.Scale(c.bollPeriod, interval) && n >= Realtime.Scale(c.envPeriod, interval)
    requires Interval.IntervalToMinutes(interval).Ok? || (c.macdFast2 > 0 && c.macdSlow2 > 0 && c.macdSignal2 > 0)
    ensures !Realtime.Panics(n, Realtime.PeriodsOf(c, interval))
  {
  }

  /** The checks of POST /api/config before the service is called: the
      rejection, or None when the update goes ahead. */
  function UpdateRejection(hasService: bool, symbolQ: Option<string>, body: Result<IndicatorConfig>): (r: Option<Response>)
    ensures r.Some? ==> r.value.status == StatusBadRequest
    ensures r.None? <==>
              hasService && DefaultQuery(symbolQ, "BTCUSDT") != "" && body.Ok? && ValidationError(body.value).None?
  {
    if !hasService then Some(Response(StatusBadRequest, Message("realtime service not initialised")))
    else if DefaultQuery(symbolQ, "BTCUSDT") == "" then Some(Response(StatusBadRequest, Message("symbol is required")))
    else if body.Err? then Some(Response(StatusBadRequest, Message("bad configuration: " + body.msg)))
    else match ValidationError(body.value)
      case Some(e) => Some(Response(StatusBadRequest, Message(e)))
      case None => None
  }

  /** POST /api/config. With the service present and the request accepted
      the configuration is written to the service's map (even when saving
      it then fails, which answers 500); a rejected request changes
      nothing. */
  method UpdateConfig(svc: Realtime.RealtimeService?, symbolQ: Option<string>, body: Result<IndicatorConfig>,
                      saveFailed: bool) returns (resp: Response)
    modifies svc
    ensures UpdateRejection(svc != null, symbolQ, body).Some? ==>
              resp == UpdateRejection(svc != null, symbolQ, body).value && (svc != null ==> unchanged(svc))
    ensures UpdateRejection(svc != null, symbolQ, body).None? ==>
              var symbol := DefaultQuery(symbolQ, "BTCUSDT");
              svc.configs == old(svc.configs)[symbol := body.value] &&
              svc.symbol == old(svc.symbol) && svc.klines == old(svc.klines) &&
              (resp.status == StatusOK <==> !(svc.hasRepo && saveFailed)) &&
              (resp.status == StatusOK ==> resp.body == Updated(symbol, body.value)) &&
              (resp.status != StatusOK ==> resp.status == StatusInternalServerError)
  {
    var rejection := UpdateRejection(svc != null, symbolQ, body);
    if rejection.Some? {
      return rejection.value;
    }
    var symbol := DefaultQuery(symbolQ, "BTCUSDT");
    var failed := svc.UpdateConfig(symbol, body.value, saveFailed);
    if failed {
      return Response(StatusInternalServerError, Message("saving the configuration failed"));
    }
    resp := Response(StatusOK, Updated(symbol, body.value));
  }

  /** GET /api/config: 400 without a service, otherwise the service's
      configuration for the symbol (default "BTCUSDT"). */
  method GetConfig(svc: Realtime.RealtimeService?, symbolQ: Option<string>, stored: Option<IndicatorConfig>)
      returns (resp: Response)
    modifies svc
    ensures svc == null ==> resp.status == StatusBadRequest
    ensures svc != null ==>
              var symbol := DefaultQuery(symbolQ, "BTCUSDT");
              resp.status == StatusOK && resp.body.Config? &&
              (symbol in old(svc.configs) ==> resp.body.config == old(svc.configs)[symbol]) &&
              (symbol !in old(svc.configs) && !(svc.hasRepo && stored.Some?) ==> resp.body.config == DefaultConfig())
  {
    if svc == null {
      return Response(StatusBadRequest, Message("realtime service not initialised"));
    }
    var config := svc.GetConfig(DefaultQuery(symbolQ, "BTCUSDT"), stored);
    resp := Response(StatusOK, Config(config));
  }

  /** GET /api/indicators: 400 without a symbol; otherwise the service's
      answer for the interval (default "1h") and the limit, 500 on its
      error. */
  method GetIndicators(svc: IndicatorService.IndicatorService, symbolQ: Option<string>, intervalQ: Option<string>,
                       limitQ: Option<string>, fetched: Result<seq<Kline>>, saveOk: bool)
      returns (resp: Response)
    modifies svc
    ensures DefaultQuery(symbolQ, "") == "" ==> resp.status == StatusBadRequest && unchanged(svc)
    ensures DefaultQuery(symbolQ, "") != "" ==>
              var key := IndicatorService.CacheKey(symbolQ.value, DefaultQuery(intervalQ, "1h"), LimitOf(limitQ));
              (old(svc.redisUp) && key in old(svc.cache) ==>
                 resp == Response(StatusOK, Indicators(old(svc.cache)[key]))) &&
              (!(old(svc.redisUp) && key in old(svc.cache)) ==>
                 match IndicatorService.ComputeOf(symbolQ.value, DefaultQuery(intervalQ, "1h"), fetched)
                 case Ok(r) => resp == Response(StatusOK, Indicators(r))
                 case Err(_) => resp.status == StatusInternalServerError)
  {
    var symbol := DefaultQuery(symbolQ, "");
    var interval := DefaultQuery(intervalQ, "1h");
    if symbol == "" {
      return Response(StatusBadRequest, Message("symbol is required"));
    }
    var limit := LimitOf(limitQ);
    var result := svc.GetIndicators(symbol, interval, limit, fetched, saveOk);
    if result.Err? {
      return Response(StatusInternalServerError, Message(result.msg));
    }
    resp := Response(StatusOK, Indicators(result.value));
  }
}
