/** The indicator configuration panels of the page (web/static/app.js,
    web/static/app-refactored.js) and the JSON they exchange with the back
    end: the object GET /api/config answers with (pkg/types/config.go), the
    body POST /api/config binds into a zero configuration before checking
    it (internal/api/handler.go), the inputs `updateConfigInputs` fills in
    and the body `applyConfig` posts. The input boxes hold numbers here:
    reading one with `parseInt` truncates toward zero, with `parseFloat`
    keeps it, and a box without a number reads NaN. */
module ConfigPanel {
  import opened Wrappers
  import opened JsMath
  import opened Types
  import Handler
  import Decimal

  /** Property names: the seventeen JSON tags of IndicatorConfig
      (cci_period1 ... env_deviation), and any other name. */
  datatype Key =
    | CciPeriod1 | CciPeriod2 | CciPeriod3
    | MacdFast1 | MacdSlow1 | MacdSignal1 | MacdFast2 | MacdSlow2 | MacdSignal2
    | MacdN1 | MacdN2 | RsiPeriod1 | RsiPeriod2
    | BollPeriod | BollDeviation | EnvPeriod | EnvDeviation
    | Other(name: string)

  /** A JSON object as JavaScript sees it: a missing property reads
      undefined, and a NaN property is written as null. */
  type Json = map<Key, JsNum>

  function Get(o: Json, key: Key): JsNum
  {
    if key in o then o[key] else Undefined
  }

  /** The MACD tags of the back end, and the ones the refactored page uses. */
  datatype MacdTags = MacdTags(fast1: Key, slow1: Key, signal1: Key, fast2: Key, slow2: Key, signal2: Key)

  const MacdKeys := MacdTags(MacdFast1, MacdSlow1, MacdSignal1, MacdFast2, MacdSlow2, MacdSignal2)
  const RefactoredMacdKeys := MacdTags(Other("macd1_fast"), Other("macd1_slow"), Other("macd1_signal"),
                                      Other("macd2_fast"), Other("macd2_slow"), Other("macd2_signal"))

  /** The object Go's encoder writes for a configuration. */
  function ConfigJson(c: IndicatorConfig): Json
  {
    map[CciPeriod1 := Num(c.cciPeriod1 as real), CciPeriod2 := Num(c.cciPeriod2 as real),
        CciPeriod3 := Num(c.cciPeriod3 as real),
        MacdFast1 := Num(c.macdFast1 as real), MacdSlow1 := Num(c.macdSlow1 as real),
        MacdSignal1 := Num(c.macdSignal1 as real),
        MacdFast2 := Num(c.macdFast2 as real), MacdSlow2 := Num(c.macdSlow2 as real),
        MacdSignal2 := Num(c.macdSignal2 as real),
        MacdN1 := Num(c.macdN1), MacdN2 := Num(c.macdN2),
        RsiPeriod1 := Num(c.rsiPeriod1 as real), RsiPeriod2 := Num(c.rsiPeriod2 as real),
        BollPeriod := Num(c.bollPeriod as real), BollDeviation := Num(c.bollDeviation),
        EnvPeriod := Num(c.envPeriod as real), EnvDeviation := Num(c.envDeviation)]
  }

  /** Go's decoder accepts, for a 64-bit int field, a whole number within
      the 64-bit range, null or nothing: the digits JavaScript writes for
      any other number fail to parse as an int64. */
  predicate IntegralValue(x: JsNum)
  {
    x.Num? ==> x.v.Floor as real == x.v && Decimal.MinInt64 as real <= x.v <= Decimal.MaxInt64 as real
  }

  predicate Integral(o: Json, key: Key)
  {
    IntegralValue(Get(o, key))
  }

  /** Every int field of the body is acceptable. */
  predicate AllIntegral(o: Json)
  {
    Integral(o, CciPeriod1) && Integral(o, CciPeriod2) && Integral(o, CciPeriod3) &&
    Integral(o, MacdFast1) && Integral(o, MacdSlow1) && Integral(o, MacdSignal1) &&
    Integral(o, MacdFast2) && Integral(o, MacdSlow2) && Integral(o, MacdSignal2) &&
    Integral(o, RsiPeriod1) && Integral(o, RsiPeriod2) && Integral(o, BollPeriod) && Integral(o, EnvPeriod)
  }

  /** A field the body does not give, or gives as null, keeps its zero. */
  function IntOfValue(x: JsNum): int
  {
    if x.Num? then x.v.Floor else 0
  }

  function IntValue(o: Json, key: Key): int
  {
    IntOfValue(Get(o, key))
  }

  function FloatValue(o: Json, key: Key): real
  {
    var x := Get(o, key);
    if x.Num? then x.v else 0.0
  }

  /** ShouldBindJSON into a zero IndicatorConfig: properties with other
      names are ignored, and a fraction or a value beyond 64 bits in an int
      field is an error. */
  function Bind(o: Json): Result<IndicatorConfig>
  {
    if AllIntegral(o) then
      Ok(IndicatorConfig(
        IntValue(o, CciPeriod1), IntValue(o, CciPeriod2), IntValue(o, CciPeriod3),
        IntValue(o, MacdFast1), IntValue(o, MacdSlow1), IntValue(o, MacdSignal1),
        IntValue(o, MacdFast2), IntValue(o, MacdSlow2), IntValue(o, MacdSignal2),
        FloatValue(o, MacdN1), FloatValue(o, MacdN2),
        IntValue(o, RsiPeriod1), IntValue(o, RsiPeriod2),
        IntValue(o, BollPeriod), FloatValue(o, BollDeviation),
        IntValue(o, EnvPeriod), FloatValue(o, EnvDeviation)))
    else Err("cannot unmarshal number into an int field")
  }

  /** Each tag of the object holds its field. */
  lemma ConfigJsonFields(c: IndicatorConfig)
    ensures var o := ConfigJson(c);
            Get(o, CciPeriod1) == Num(c.cciPeriod1 as real) && Get(o, CciPeriod2) == Num(c.cciPeriod2 as real) &&
            Get(o, CciPeriod3) == Num(c.cciPeriod3 as real) && Get(o, MacdFast1) == Num(c.macdFast1 as real) &&
            Get(o, MacdSlow1) == Num(c.macdSlow1 as real) && Get(o, MacdSignal1) == Num(c.macdSignal1 as real) &&
            Get(o, MacdFast2) == Num(c.macdFast2 as real) && Get(o, MacdSlow2) == Num(c.macdSlow2 as real) &&
            Get(o, MacdSignal2) == Num(c.macdSignal2 as real) && Get(o, MacdN1) == Num(c.macdN1) &&
            Get(o, MacdN2) == Num(c.macdN2) && Get(o, RsiPeriod1) == Num(c.rsiPeriod1 as real) &&
            Get(o, RsiPeriod2) == Num(c.rsiPeriod2 as real) && Get(o, BollPeriod) == Num(c.bollPeriod as real) &&
            Get(o, BollDeviation) == Num(c.bollDeviation) && Get(o, EnvPeriod) == Num(c.envPeriod as real) &&
            Get(o, EnvDeviation) == Num(c.envDeviation)
    ensures forall name :: Other(name) !in ConfigJson(c)
  {
    CciAndFirstMacdFields(c);
    SecondMacdFields(c);
    RsiAndBandFields(c);
  }

  lemma CciAndFirstMacdFields(c: IndicatorConfig)
    ensures var o := ConfigJson(c);
            Get(o, CciPeriod1) == Num(c.cciPeriod1 as real) && Get(o, CciPeriod2) == Num(c.cciPeriod2 as real) &&
            Get(o, CciPeriod3) == Num(c.cciPeriod3 as real) && Get(o, MacdFast1) == Num(c.macdFast1 as real) &&
            Get(o, MacdSlow1) == Num(c.macdSlow1 as real) && Get(o, MacdSignal1) == Num(c.macdSignal1 as real)
  {
  }

  lemma SecondMacdFields(c: IndicatorConfig)
    ensures var o := ConfigJson(c);
            Get(o, MacdFast2) == Num(c.macdFast2 as real) && Get(o, MacdSlow2) == Num(c.macdSlow2 as real) &&
            Get(o, MacdSignal2) == Num(c.macdSignal2 as real) && Get(o, MacdN1) == Num(c.macdN1) &&
            Get(o, MacdN2) == Num(c.macdN2)
  {
  }

  lemma RsiAndBandFields(c: IndicatorConfig)
    ensures var o := ConfigJson(c);
            Get(o, RsiPeriod1) == Num(c.rsiPeriod1 as real) &&
            Get(o, RsiPeriod2) == Num(c.rsiPeriod2 as real) && Get(o, BollPeriod) == Num(c.bollPeriod as real) &&
            Get(o, BollDeviation) == Num(c.bollDeviation) && Get(o, EnvPeriod) == Num(c.envPeriod as real) &&
            Get(o, EnvDeviation) == Num(c.envDeviation)
  {
  }

  /** The int fields of a configuration fit Go's 64-bit `int`, as every
      configuration the back end holds does. */
  predicate Int64Config(c: IndicatorConfig)
  {
    Decimal.InInt64(c.cciPeriod1) && Decimal.InInt64(c.cciPeriod2) && Decimal.InInt64(c.cciPeriod3) &&
    Decimal.InInt64(c.macdFast1) && Decimal.InInt64(c.macdSlow1) && Decimal.InInt64(c.macdSignal1) &&
    Decimal.InInt64(c.macdFast2) && Decimal.InInt64(c.macdSlow2) && Decimal.InInt64(c.macdSignal2) &&
    Decimal.InInt64(c.rsiPeriod1) && Decimal.InInt64(c.rsiPeriod2) &&
    Decimal.InInt64(c.bollPeriod) && Decimal.InInt64(c.envPeriod)
  }

  /** The object the back end writes binds back to the same configuration;
      one holding an int beyond 64 bits, which no Go configuration does,
      is refused. */
  lemma BindConfigJson(c: IndicatorConfig)
    ensures Bind(ConfigJson(c)).Ok? <==> Int64Config(c)
    ensures Int64Config(c) ==> Bind(ConfigJson(c)) == Ok(c)
  {
    ConfigJsonFields(c);
    BindFields(ConfigJson(c), c);
  }

  /** An object whose every tag holds the field of `c` binds to `c`. */
  lemma BindFields(o: Json, c: IndicatorConfig)
    requires Get(o, CciPeriod1) == Num(c.cciPeriod1 as real) && Get(o, CciPeriod2) == Num(c.cciPeriod2 as real)
    requires Get(o, CciPeriod3) == Num(c.cciPeriod3 as real) && Get(o, MacdFast1) == Num(c.macdFast1 as real)
    requires Get(o, MacdSlow1) == Num(c.macdSlow1 as real) && Get(o, MacdSignal1) == Num(c.macdSignal1 as real)
    requires Get(o, MacdFast2) == Num(c.macdFast2 as real) && Get(o, MacdSlow2) == Num(c.macdSlow2 as real)
    requires Get(o, MacdSignal2) == Num(c.macdSignal2 as real) && Get(o, MacdN1) == Num(c.macdN1)
    requires Get(o, MacdN2) == Num(c.macdN2) && Get(o, RsiPeriod1) == Num(c.rsiPeriod1 as real)
    requires Get(o, RsiPeriod2) == Num(c.rsiPeriod2 as real) && Get(o, BollPeriod) == Num(c.bollPeriod as real)
    requires Get(o, BollDeviation) == Num(c.bollDeviation) && Get(o, EnvPeriod) == Num(c.envPeriod as real)
    requires Get(o, EnvDeviation) == Num(c.envDeviation)
    ensures Bind(o).Ok? <==> Int64Config(c)
    ensures Int64Config(c) ==> Bind(o) == Ok(c)
  {
    IntField(o, CciPeriod1, c.cciPeriod1);
    IntField(o, CciPeriod2, c.cciPeriod2);
    IntField(o, CciPeriod3, c.cciPeriod3);
    IntField(o, MacdFast1, c.macdFast1);
    IntField(o, MacdSlow1, c.macdSlow1);
    IntField(o, MacdSignal1, c.macdSignal1);
    IntField(o, MacdFast2, c.macdFast2);
    IntField(o, MacdSlow2, c.macdSlow2);
    IntField(o, MacdSignal2, c.macdSignal2);
    IntField(o, RsiPeriod1, c.rsiPeriod1);
    IntField(o, RsiPeriod2, c.rsiPeriod2);
    IntField(o, BollPeriod, c.bollPeriod);
    IntField(o, EnvPeriod, c.envPeriod);
  }

  /** An object that gives every field of `c`, each int field acceptable
      exactly when `c`'s fits in 64 bits, binds to `c` when they all fit,
      and is refused otherwise. */
  lemma BindAgrees(o: Json, c: IndicatorConfig)
    requires (Integral(o, CciPeriod1) <==> Decimal.InInt64(c.cciPeriod1)) && IntValue(o, CciPeriod1) == c.cciPeriod1
    requires (Integral(o, CciPeriod2) <==> Decimal.InInt64(c.cciPeriod2)) && IntValue(o, CciPeriod2) == c.cciPeriod2
    requires (Integral(o, CciPeriod3) <==> Decimal.InInt64(c.cciPeriod3)) && IntValue(o, CciPeriod3) == c.cciPeriod3
    requires (Integral(o, MacdFast1) <==> Decimal.InInt64(c.macdFast1)) && IntValue(o, MacdFast1) == c.macdFast1
    requires (Integral(o, MacdSlow1) <==> Decimal.InInt64(c.macdSlow1)) && IntValue(o, MacdSlow1) == c.macdSlow1
    requires (Integral(o, MacdSignal1) <==> Decimal.InInt64(c.macdSignal1)) && IntValue(o, MacdSignal1) == c.macdSignal1
    requires (Integral(o, MacdFast2) <==> Decimal.InInt64(c.macdFast2)) && IntValue(o, MacdFast2) == c.macdFast2
    requires (Integral(o, MacdSlow2) <==> Decimal.InInt64(c.macdSlow2)) && IntValue(o, MacdSlow2) == c.macdSlow2
    requires (Integral(o, MacdSignal2) <==> Decimal.InInt64(c.macdSignal2)) && IntValue(o, MacdSignal2) == c.macdSignal2
    requires (Integral(o, RsiPeriod1) <==> Decimal.InInt64(c.rsiPeriod1)) && IntValue(o, RsiPeriod1) == c.rsiPeriod1
    requires (Integral(o, RsiPeriod2) <==> Decimal.InInt64(c.rsiPeriod2)) && IntValue(o, RsiPeriod2) == c.rsiPeriod2
    requires (Integral(o, BollPeriod) <==> Decimal.InInt64(c.bollPeriod)) && IntValue(o, BollPeriod) == c.bollPeriod
    requires (Integral(o, EnvPeriod) <==> Decimal.InInt64(c.envPeriod)) && IntValue(o, EnvPeriod) == c.envPeriod
    requires FloatValue(o, MacdN1) == c.macdN1 && FloatValue(o, MacdN2) == c.macdN2
    requires FloatValue(o, BollDeviation) == c.bollDeviation && FloatValue(o, EnvDeviation) == c.envDeviation
    ensures Bind(o).Ok? <==> Int64Config(c)
    ensures Int64Config(c) ==> Bind(o) == Ok(c)
  {
  }

  /** A whole number in an int field binds as itself, and is accepted
      exactly when it fits in 64 bits. */
  lemma IntField(o: Json, key: Key, n: int)
    requires Get(o, key) == Num(n as real)
    ensures Integral(o, key) <==> Decimal.InInt64(n)
    ensures IntValue(o, key) == n
  {
  }

  /** The fifteen input boxes of the four panels. */
  datatype Form = Form(
    bollPeriod: JsNum, bollDeviation: JsNum, envPeriod: JsNum, envDeviation: JsNum,
    macd1Fast: JsNum, macd1Slow: JsNum, macd1Signal: JsNum,
    macd2Fast: JsNum, macd2Slow: JsNum, macd2Signal: JsNum,
    cciPeriod1: JsNum, cciPeriod2: JsNum, cciPeriod3: JsNum,
    rsiPeriod1: JsNum, rsiPeriod2: JsNum)

  /** The boxes holding exactly the values of a configuration. */
  function FormOf(c: IndicatorConfig): Form
  {
    Form(Num(c.bollPeriod as real), Num(c.bollDeviation), Num(c.envPeriod as real), Num(c.envDeviation),
         Num(c.macdFast1 as real), Num(c.macdSlow1 as real), Num(c.macdSignal1 as real),
         Num(c.macdFast2 as real), Num(c.macdSlow2 as real), Num(c.macdSignal2 as real),
         Num(c.cciPeriod1 as real), Num(c.cciPeriod2 as real), Num(c.cciPeriod3 as real),
         Num(c.rsiPeriod1 as real), Num(c.rsiPeriod2 as real))
  }

  /** `config.key || fallback`: a missing, NaN or zero property shows the
      fallback. */
  function OrElse(x: JsNum, fallback: real): JsNum
  {
    Num(if x.Truthy() then x.v else fallback)
  }

  /** updateConfigInputs, reading the MACD values under `macdKeys`. */
  function Displayed(o: Json, macdKeys: MacdTags): Form
  {
    Form(OrElse(Get(o, BollPeriod), 24.0), OrElse(Get(o, BollDeviation), 2.0),
         OrElse(Get(o, EnvPeriod), 24.0), OrElse(Get(o, EnvDeviation), 2.28),
         OrElse(Get(o, macdKeys.fast1), 48.0), OrElse(Get(o, macdKeys.slow1), 72.0), OrElse(Get(o, macdKeys.signal1), 2.0),
         OrElse(Get(o, macdKeys.fast2), 72.0), OrElse(Get(o, macdKeys.slow2), 168.0), OrElse(Get(o, macdKeys.signal2), 2.0),
         OrElse(Get(o, CciPeriod1), 48.0), OrElse(Get(o, CciPeriod2), 72.0), OrElse(Get(o, CciPeriod3), 168.0),
         OrElse(Get(o, RsiPeriod1), 48.0), OrElse(Get(o, RsiPeriod2), 72.0))
  }

  /** updateConfigInputs of the original page. */
  function InputsOf(o: Json): Form
  {
    Displayed(o, MacdKeys)
  }

  /** updateConfigInputs of the refactored page. */
  function RefactoredInputsOf(o: Json): Form
  {
    Displayed(o, RefactoredMacdKeys)
  }

  /** The fallbacks of both pages are the back end's defaults. */
  lemma FallbacksAreDefaults()
    ensures InputsOf(map[]) == FormOf(DefaultConfig())
    ensures RefactoredInputsOf(map[]) == FormOf(DefaultConfig())
  {
  }

  /** Every value the inputs show is not zero. */
  predicate NoZeroShown(c: IndicatorConfig)
  {
    c.bollPeriod != 0 && c.bollDeviation != 0.0 && c.envPeriod != 0 && c.envDeviation != 0.0 &&
    c.macdFast1 != 0 && c.macdSlow1 != 0 && c.macdSignal1 != 0 &&
    c.macdFast2 != 0 && c.macdSlow2 != 0 && c.macdSignal2 != 0 &&
    c.cciPeriod1 != 0 && c.cciPeriod2 != 0 && c.cciPeriod3 != 0 &&
    c.rsiPeriod1 != 0 && c.rsiPeriod2 != 0
  }

  /** The original page shows a loaded configuration as it is, provided no
      shown value is zero (a zero shows its fallback instead). */
  lemma InputsShowConfig(c: IndicatorConfig)
    requires NoZeroShown(c)
    ensures InputsOf(ConfigJson(c)) == FormOf(c)
  {
  }

  /** The refactored page looks the MACD values up under tags the back end
      never writes: whatever the configuration, the six MACD inputs show
      48/72/2 and 72/168/2, while the other inputs agree with the original
      page. */
  lemma RefactoredMacdInputsFixed(c: IndicatorConfig)
    ensures var f := RefactoredInputsOf(ConfigJson(c));
            f.macd1Fast == Num(48.0) && f.macd1Slow == Num(72.0) && f.macd1Signal == Num(2.0) &&
            f.macd2Fast == Num(72.0) && f.macd2Slow == Num(168.0) && f.macd2Signal == Num(2.0)
    ensures var f := RefactoredInputsOf(ConfigJson(c));
            var g := InputsOf(ConfigJson(c));
            f.(macd1Fast := g.macd1Fast, macd1Slow := g.macd1Slow, macd1Signal := g.macd1Signal,
               macd2Fast := g.macd2Fast, macd2Slow := g.macd2Slow, macd2Signal := g.macd2Signal) == g
  {
    ConfigJsonFields(c);
  }

  /** A fast MACD period of 12 loaded from the server: the original page
      shows 12, the refactored page shows 48. */
  lemma RefactoredInputsMisreport()
    ensures var c := DefaultConfig().(macdFast1 := 12);
            InputsOf(ConfigJson(c)).macd1Fast == Num(12.0) &&
            RefactoredInputsOf(ConfigJson(c)).macd1Fast == Num(48.0)
  {
    RefactoredMacdInputsFixed(DefaultConfig().(macdFast1 := 12));
    ConfigJsonFields(DefaultConfig().(macdFast1 := 12));
  }

  /** `parseInt` of a box. */
  function ParseInt(x: JsNum): JsNum
  {
    if x.Num? then Num(GoTrunc(x.v) as real) else NaN
  }

  /** applyConfig(kind) sets the panel's properties on `base`, in the
      source's order, with the MACD values under `macdKeys`; any other kind
      sets none. */
  function Body(base: Json, kind: string, f: Form, macdKeys: MacdTags): Json
  {
    if kind == "main" then
      base[BollPeriod := ParseInt(f.bollPeriod)][BollDeviation := f.bollDeviation]
          [EnvPeriod := ParseInt(f.envPeriod)][EnvDeviation := f.envDeviation]
    else if kind == "macd" then
      base[macdKeys.fast1 := ParseInt(f.macd1Fast)][macdKeys.slow1 := ParseInt(f.macd1Slow)]
          [macdKeys.signal1 := ParseInt(f.macd1Signal)][macdKeys.fast2 := ParseInt(f.macd2Fast)]
          [macdKeys.slow2 := ParseInt(f.macd2Slow)][macdKeys.signal2 := ParseInt(f.macd2Signal)]
    else if kind == "cci" then
      base[CciPeriod1 := ParseInt(f.cciPeriod1)][CciPeriod2 := ParseInt(f.cciPeriod2)]
          [CciPeriod3 := ParseInt(f.cciPeriod3)]
    else if kind == "rsi" then
      base[RsiPeriod1 := ParseInt(f.rsiPeriod1)][RsiPeriod2 := ParseInt(f.rsiPeriod2)]
    else base
  }

  /** The body the original page posts: a copy of the loaded configuration
      with the panel's fields replaced. */
  function MergedBody(current: Json, kind: string, f: Form): Json
  {
    Body(current, kind, f, MacdKeys)
  }

  /** The body the refactored page posts: the panel's fields only. */
  function RefactoredBody(kind: string, f: Form): Json
  {
    Body(map[], kind, f, RefactoredMacdKeys)
  }

  /** What a box becomes once parsed and bound by the back end. */
  function IntOf(x: JsNum): int
  {
    if x.Num? then GoTrunc(x.v) else 0
  }

  function FloatOf(x: JsNum): real
  {
    if x.Num? then x.v else 0.0
  }

  /** The configuration `c` with the fields of panel `kind` taken from the
      boxes. */
  function Applied(c: IndicatorConfig, kind: string, f: Form): IndicatorConfig
  {
    if kind == "main" then
      c.(bollPeriod := IntOf(f.bollPeriod), bollDeviation := FloatOf(f.bollDeviation),
         envPeriod := IntOf(f.envPeriod), envDeviation := FloatOf(f.envDeviation))
    else if kind == "macd" then
      c.(macdFast1 := IntOf(f.macd1Fast), macdSlow1 := IntOf(f.macd1Slow), macdSignal1 := IntOf(f.macd1Signal),
         macdFast2 := IntOf(f.macd2Fast), macdSlow2 := IntOf(f.macd2Slow), macdSignal2 := IntOf(f.macd2Signal))
    else if kind == "cci" then
      c.(cciPeriod1 := IntOf(f.cciPeriod1), cciPeriod2 := IntOf(f.cciPeriod2), cciPeriod3 := IntOf(f.cciPeriod3))
    else if kind == "rsi" then
      c.(rsiPeriod1 := IntOf(f.rsiPeriod1), rsiPeriod2 := IntOf(f.rsiPeriod2))
    else c
  }

  /** The fields the back end checks, of the panel being applied, are
      positive once parsed. */
  predicate PanelPositive(kind: string, f: Form)
  {
    if kind == "main" then
      IntOf(f.bollPeriod) > 0 && FloatOf(f.bollDeviation) > 0.0 &&
      IntOf(f.envPeriod) > 0 && FloatOf(f.envDeviation) > 0.0
    else if kind == "macd" then
      IntOf(f.macd1Fast) > 0 && IntOf(f.macd1Slow) > 0 && IntOf(f.macd1Signal) > 0
    else if kind == "cci" then
      IntOf(f.cciPeriod1) > 0 && IntOf(f.cciPeriod2) > 0 && IntOf(f.cciPeriod3) > 0
    else if kind == "rsi" then
      IntOf(f.rsiPeriod1) > 0 && IntOf(f.rsiPeriod2) > 0
    else true
  }

  /** Every int box of the panel being applied fits Go's 64-bit `int` once
      parsed. */
  predicate PanelInRange(kind: string, f: Form)
  {
    if kind == "main" then
      Decimal.InInt64(IntOf(f.bollPeriod)) && Decimal.InInt64(IntOf(f.envPeriod))
    else if kind == "macd" then
      Decimal.InInt64(IntOf(f.macd1Fast)) && Decimal.InInt64(IntOf(f.macd1Slow)) &&
      Decimal.InInt64(IntOf(f.macd1Signal)) && Decimal.InInt64(IntOf(f.macd2Fast)) &&
      Decimal.InInt64(IntOf(f.macd2Slow)) && Decimal.InInt64(IntOf(f.macd2Signal))
    else if kind == "cci" then
      Decimal.InInt64(IntOf(f.cciPeriod1)) && Decimal.InInt64(IntOf(f.cciPeriod2)) &&
      Decimal.InInt64(IntOf(f.cciPeriod3))
    else if kind == "rsi" then
      Decimal.InInt64(IntOf(f.rsiPeriod1)) && Decimal.InInt64(IntOf(f.rsiPeriod2))
    else true
  }

  /** The body the original page posts binds to the loaded configuration
      with the panel's fields replaced, provided every int fits in 64
      bits, and is refused otherwise; from a loaded configuration that
      fits, that is exactly when the panel's int boxes fit. */
  lemma MergedBind(c: IndicatorConfig, kind: string, f: Form)
    ensures Bind(MergedBody(ConfigJson(c), kind, f)).Ok? <==> Int64Config(Applied(c, kind, f))
    ensures Int64Config(Applied(c, kind, f)) ==> Bind(MergedBody(ConfigJson(c), kind, f)) == Ok(Applied(c, kind, f))
    ensures Int64Config(c) ==> (Int64Config(Applied(c, kind, f)) <==> PanelInRange(kind, f))
  {
    if kind == "main" {
      MergedBindMain(c, f);
    } else if kind == "macd" {
      MergedBindMacd(c, f);
    } else if kind == "cci" {
      MergedBindCci(c, f);
    } else if kind == "rsi" {
      MergedBindRsi(c, f);
    } else {
      BindConfigJson(c);
    }
  }

  lemma MergedBindMain(c: IndicatorConfig, f: Form)
    ensures Bind(MergedBody(ConfigJson(c), "main", f)).Ok? <==> Int64Config(Applied(c, "main", f))
    ensures Int64Config(Applied(c, "main", f)) ==> Bind(MergedBody(ConfigJson(c), "main", f)) == Ok(Applied(c, "main", f))
  {
    var b := MergedBody(ConfigJson(c), "main", f);
    ConfigJsonFields(c);
    MainBodyFields(ConfigJson(c), f);
    MergedBindParsed(f.bollPeriod);
    MergedBindParsed(f.envPeriod);
    KeptCci(b, c);
    KeptMacd(b, c);
    KeptRsi(b, c);
    BindAgrees(b, Applied(c, "main", f));
  }

  lemma MergedBindMacd(c: IndicatorConfig, f: Form)
    ensures Bind(MergedBody(ConfigJson(c), "macd", f)).Ok? <==> Int64Config(Applied(c, "macd", f))
    ensures Int64Config(Applied(c, "macd", f)) ==> Bind(MergedBody(ConfigJson(c), "macd", f)) == Ok(Applied(c, "macd", f))
  {
    var b := MergedBody(ConfigJson(c), "macd", f);
    ConfigJsonFields(c);
    MacdBodyFields(ConfigJson(c), f);
    MergedBindParsed(f.macd1Fast);
    MergedBindParsed(f.macd1Slow);
    MergedBindParsed(f.macd1Signal);
    MergedBindParsed(f.macd2Fast);
    MergedBindParsed(f.macd2Slow);
    MergedBindParsed(f.macd2Signal);
    KeptCci(b, c);
    KeptRsi(b, c);
    KeptBands(b, c);
    BindAgrees(b, Applied(c, "macd", f));
  }

  /** Int fields a body keeps from the back end's object still agree with
      the configuration it was written from. */
  lemma KeptCci(b: Json, c: IndicatorConfig)
    requires Get(b, CciPeriod1) == Num(c.cciPeriod1 as real) && Get(b, CciPeriod2) == Num(c.cciPeriod2 as real)
    requires Get(b, CciPeriod3) == Num(c.cciPeriod3 as real)
    ensures (Integral(b, CciPeriod1) <==> Decimal.InInt64(c.cciPeriod1)) && IntValue(b, CciPeriod1) == c.cciPeriod1
    ensures (Integral(b, CciPeriod2) <==> Decimal.InInt64(c.cciPeriod2)) && IntValue(b, CciPeriod2) == c.cciPeriod2
    ensures (Integral(b, CciPeriod3) <==> Decimal.InInt64(c.cciPeriod3)) && IntValue(b, CciPeriod3) == c.cciPeriod3
  {
    IntField(b, CciPeriod1, c.cciPeriod1);
    IntField(b, CciPeriod2, c.cciPeriod2);
    IntField(b, CciPeriod3, c.cciPeriod3);
  }

  lemma KeptMacd(b: Json, c: IndicatorConfig)
    requires Get(b, MacdFast1) == Num(c.macdFast1 as real) && Get(b, MacdSlow1) == Num(c.macdSlow1 as real)
    requires Get(b, MacdSignal1) == Num(c.macdSignal1 as real) && Get(b, MacdFast2) == Num(c.macdFast2 as real)
    requires Get(b, MacdSlow2) == Num(c.macdSlow2 as real) && Get(b, MacdSignal2) == Num(c.macdSignal2 as real)
    ensures (Integral(b, MacdFast1) <==> Decimal.InInt64(c.macdFast1)) && IntValue(b, MacdFast1) == c.macdFast1
    ensures (Integral(b, MacdSlow1) <==> Decimal.InInt64(c.macdSlow1)) && IntValue(b, MacdSlow1) == c.macdSlow1
    ensures (Integral(b, MacdSignal1) <==> Decimal.InInt64(c.macdSignal1)) && IntValue(b, MacdSignal1) == c.macdSignal1
    ensures (Integral(b, MacdFast2) <==> Decimal.InInt64(c.macdFast2)) && IntValue(b, MacdFast2) == c.macdFast2
    ensures (Integral(b, MacdSlow2) <==> Decimal.InInt64(c.macdSlow2)) && IntValue(b, MacdSlow2) == c.macdSlow2
    ensures (Integral(b, MacdSignal2) <==> Decimal.InInt64(c.macdSignal2)) && IntValue(b, MacdSignal2) == c.macdSignal2
  {
    IntField(b, MacdFast1, c.macdFast1);
    IntField(b, MacdSlow1, c.macdSlow1);
    IntField(b, MacdSignal1, c.macdSignal1);
    IntField(b, MacdFast2, c.macdFast2);
    IntField(b, MacdSlow2, c.macdSlow2);
    IntField(b, MacdSignal2, c.macdSignal2);
  }

  lemma KeptRsi(b: Json, c: IndicatorConfig)
    requires Get(b, RsiPeriod1) == Num(c.rsiPeriod1 as real) && Get(b, RsiPeriod2) == Num(c.rsiPeriod2 as real)
    ensures (Integral(b, RsiPeriod1) <==> Decimal.InInt64(c.rsiPeriod1)) && IntValue(b, RsiPeriod1) == c.rsiPeriod1
    ensures (Integral(b, RsiPeriod2) <==> Decimal.InInt64(c.rsiPeriod2)) && IntValue(b, RsiPeriod2) == c.rsiPeriod2
  {
    IntField(b, RsiPeriod1, c.rsiPeriod1);
    IntField(b, RsiPeriod2, c.rsiPeriod2);
  }

  lemma KeptBands(b: Json, c: IndicatorConfig)
    requires Get(b, BollPeriod) == Num(c.bollPeriod as real) && Get(b, EnvPeriod) == Num(c.envPeriod as real)
    ensures (Integral(b, BollPeriod) <==> Decimal.InInt64(c.bollPeriod)) && IntValue(b, BollPeriod) == c.bollPeriod
    ensures (Integral(b, EnvPeriod) <==> Decimal.InInt64(c.envPeriod)) && IntValue(b, EnvPeriod) == c.envPeriod
  {
    IntField(b, BollPeriod, c.bollPeriod);
    IntField(b, EnvPeriod, c.envPeriod);
  }

  /** The MACD panel's body replaces the six MACD fields and keeps the rest. */
  lemma MacdBodyFields(o: Json, f: Form)
    ensures var b := Body(o, "macd", f, MacdKeys);
            Get(b, MacdFast1) == ParseInt(f.macd1Fast) && Get(b, MacdSlow1) == ParseInt(f.macd1Slow) &&
            Get(b, MacdSignal1) == ParseInt(f.macd1Signal) && Get(b, MacdFast2) == ParseInt(f.macd2Fast) &&
            Get(b, MacdSlow2) == ParseInt(f.macd2Slow) && Get(b, MacdSignal2) == ParseInt(f.macd2Signal) &&
            Get(b, CciPeriod1) == Get(o, CciPeriod1) && Get(b, CciPeriod2) == Get(o, CciPeriod2) &&
            Get(b, CciPeriod3) == Get(o, CciPeriod3) && Get(b, MacdN1) == Get(o, MacdN1) &&
            Get(b, MacdN2) == Get(o, MacdN2) && Get(b, RsiPeriod1) == Get(o, RsiPeriod1) &&
            Get(b, RsiPeriod2) == Get(o, RsiPeriod2) && Get(b, BollPeriod) == Get(o, BollPeriod) &&
            Get(b, BollDeviation) == Get(o, BollDeviation) && Get(b, EnvPeriod) == Get(o, EnvPeriod) &&
            Get(b, EnvDeviation) == Get(o, EnvDeviation)
  {
  }

  lemma MergedBindCci(c: IndicatorConfig, f: Form)
    ensures Bind(MergedBody(ConfigJson(c), "cci", f)).Ok? <==> Int64Config(Applied(c, "cci", f))
    ensures Int64Config(Applied(c, "cci", f)) ==> Bind(MergedBody(ConfigJson(c), "cci", f)) == Ok(Applied(c, "cci", f))
  {
    var b := MergedBody(ConfigJson(c), "cci", f);
    ConfigJsonFields(c);
    CciBodyFields(ConfigJson(c), f);
    MergedBindParsed(f.cciPeriod1);
    MergedBindParsed(f.cciPeriod2);
    MergedBindParsed(f.cciPeriod3);
    KeptMacd(b, c);
    KeptRsi(b, c);
    KeptBands(b, c);
    BindAgrees(b, Applied(c, "cci", f));
  }

  lemma MergedBindRsi(c: IndicatorConfig, f: Form)
    ensures Bind(MergedBody(ConfigJson(c), "rsi", f)).Ok? <==> Int64Config(Applied(c, "rsi", f))
    ensures Int64Config(Applied(c, "rsi", f)) ==> Bind(MergedBody(ConfigJson(c), "rsi", f)) == Ok(Applied(c, "rsi", f))
  {
    var b := MergedBody(ConfigJson(c), "rsi", f);
    ConfigJsonFields(c);
    RsiBodyFields(ConfigJson(c), f);
    MergedBindParsed(f.rsiPeriod1);
    MergedBindParsed(f.rsiPeriod2);
    KeptCci(b, c);
    KeptMacd(b, c);
    KeptBands(b, c);
    BindAgrees(b, Applied(c, "rsi", f));
  }

  /** The main panel's body replaces the band periods and deviations and keeps the rest. */
  lemma MainBodyFields(o: Json, f: Form)
    ensures var b := Body(o, "main", f, MacdKeys);
            Get(b, BollPeriod) == ParseInt(f.bollPeriod) && Get(b, BollDeviation) == f.bollDeviation &&
            Get(b, EnvPeriod) == ParseInt(f.envPeriod) && Get(b, EnvDeviation) == f.envDeviation &&
            Get(b, CciPeriod1) == Get(o, CciPeriod1) && Get(b, CciPeriod2) == Get(o, CciPeriod2) &&
            Get(b, CciPeriod3) == Get(o, CciPeriod3) && Get(b, MacdFast1) == Get(o, MacdFast1) &&
            Get(b, MacdSlow1) == Get(o, MacdSlow1) && Get(b, MacdSignal1) == Get(o, MacdSignal1) &&
            Get(b, MacdFast2) == Get(o, MacdFast2) && Get(b, MacdSlow2) == Get(o, MacdSlow2) &&
            Get(b, MacdSignal2) == Get(o, MacdSignal2) && Get(b, MacdN1) == Get(o, MacdN1) &&
            Get(b, MacdN2) == Get(o, MacdN2) && Get(b, RsiPeriod1) == Get(o, RsiPeriod1) &&
            Get(b, RsiPeriod2) == Get(o, RsiPeriod2)
  {
  }

  /** The CCI panel's body replaces the three CCI periods and keeps the rest. */
  lemma CciBodyFields(o: Json, f: Form)
    ensures var b := Body(o, "cci", f, MacdKeys);
            Get(b, CciPeriod1) == ParseInt(f.cciPeriod1) && Get(b, CciPeriod2) == ParseInt(f.cciPeriod2) &&
            Get(b, CciPeriod3) == ParseInt(f.cciPeriod3) && Get(b, MacdFast1) == Get(o, MacdFast1) &&
            Get(b, MacdSlow1) == Get(o, MacdSlow1) && Get(b, MacdSignal1) == Get(o, MacdSignal1) &&
            Get(b, MacdFast2) == Get(o, MacdFast2) && Get(b, MacdSlow2) == Get(o, MacdSlow2) &&
            Get(b, MacdSignal2) == Get(o, MacdSignal2) && Get(b, MacdN1) == Get(o, MacdN1) &&
            Get(b, MacdN2) == Get(o, MacdN2) && Get(b, RsiPeriod1) == Get(o, RsiPeriod1) &&
            Get(b, RsiPeriod2) == Get(o, RsiPeriod2) && Get(b, BollPeriod) == Get(o, BollPeriod) &&
            Get(b, BollDeviation) == Get(o, BollDeviation) && Get(b, EnvPeriod) == Get(o, EnvPeriod) &&
            Get(b, EnvDeviation) == Get(o, EnvDeviation)
  {
  }

  /** The RSI panel's body replaces the two RSI periods and keeps the rest. */
  lemma RsiBodyFields(o: Json, f: Form)
    ensures var b := Body(o, "rsi", f, MacdKeys);
            Get(b, RsiPeriod1) == ParseInt(f.rsiPeriod1) && Get(b, RsiPeriod2) == ParseInt(f.rsiPeriod2) &&
            Get(b, CciPeriod1) == Get(o, CciPeriod1) && Get(b, CciPeriod2) == Get(o, CciPeriod2) &&
            Get(b, CciPeriod3) == Get(o, CciPeriod3) && Get(b, MacdFast1) == Get(o, MacdFast1) &&
            Get(b, MacdSlow1) == Get(o, MacdSlow1) && Get(b, MacdSignal1) == Get(o, MacdSignal1) &&
            Get(b, MacdFast2) == Get(o, MacdFast2) && Get(b, MacdSlow2) == Get(o, MacdSlow2) &&
            Get(b, MacdSignal2) == Get(o, MacdSignal2) && Get(b, MacdN1) == Get(o, MacdN1) &&
            Get(b, MacdN2) == Get(o, MacdN2) && Get(b, BollPeriod) == Get(o, BollPeriod) &&
            Get(b, BollDeviation) == Get(o, BollDeviation) && Get(b, EnvPeriod) == Get(o, EnvPeriod) &&
            Get(b, EnvDeviation) == Get(o, EnvDeviation)
  {
  }

  /** A parsed box is a whole number or NaN: it binds to its truncation,
      and is accepted exactly when that fits in 64 bits. */
  lemma MergedBindParsed(x: JsNum)
    ensures IntegralValue(ParseInt(x)) <==> Decimal.InInt64(IntOf(x))
    ensures IntOfValue(ParseInt(x)) == IntOf(x)
  {
  }

  /** Starting from an accepted configuration, the original page's body is
      accepted exactly when the panel's int boxes fit in 64 bits and its
      checked fields are positive. */
  lemma MergedApplyAccepted(c: IndicatorConfig, kind: string, f: Form, symbol: string)
    requires Handler.ValidationError(c).None? && symbol != ""
    ensures Handler.UpdateRejection(true, Some(symbol), Bind(MergedBody(ConfigJson(c), kind, f))).None? <==>
            Int64Config(Applied(c, kind, f)) && PanelPositive(kind, f)
    ensures Int64Config(c) ==>
            (Handler.UpdateRejection(true, Some(symbol), Bind(MergedBody(ConfigJson(c), kind, f))).None? <==>
             PanelInRange(kind, f) && PanelPositive(kind, f))
  {
    MergedBind(c, kind, f);
  }

  /** The refactored page's body leaves every other panel's fields at zero,
      and its MACD fields bind to nothing: POST /api/config rejects it for
      every panel and every input. */
  lemma RefactoredApplyAlwaysRejected(kind: string, f: Form, symbolQ: Option<string>)
    ensures Handler.UpdateRejection(true, symbolQ, Bind(RefactoredBody(kind, f))).Some?
  {
    var b := RefactoredBody(kind, f);
    if kind == "cci" {
      assert IntValue(b, MacdFast1) == 0;
    } else {
      assert IntValue(b, CciPeriod1) == 0;
    }
  }
}
