/** A pushed snapshot as the browser's `data` object sees it after
    `JSON.parse` (web/static/app-refactored.js, web/static/app.js,
    web/static/chart-manager.js). An object's own properties are listed in
    `Object.keys` order, as an association list; a JSON `null` (a Go nil
    slice) or an absent property is None; numbers are JsNum. */
module ChartData {
  import opened Wrappers
  import opened JsMath
  import opened ServiceTypes

  /** `data.bollinger` / `data.envelope`: the three lines, newest first,
      and the zone when the property exists. */
  datatype Band = Band(upper: seq<JsNum>, middle: seq<JsNum>, lower: seq<JsNum>, zone: Option<int>)

  /** One value of `data.macd`. */
  datatype MacdEntry = MacdEntry(histogram: Option<seq<JsNum>>, macdLine: Option<seq<JsNum>>,
                                 signalLine: Option<seq<JsNum>>)

  /** `data.cci` / `data.rsi`: key and value in key order. */
  type Lines = seq<(string, Option<seq<JsNum>>)>

  datatype Snapshot = Snapshot(
    klines: seq<KlineData>, price: JsNum,
    cci: Option<Lines>, macd: Option<seq<(string, Option<MacdEntry>)>>, rsi: Option<Lines>,
    bollinger: Option<Band>, envelope: Option<Band>)

  function Nums(s: seq<real>): (r: seq<JsNum>)
    ensures |r| == |s| && forall i :: 0 <= i < |s| ==> r[i] == Num(s[i])
  {
    seq(|s|, i requires 0 <= i < |s| => Num(s[i]))
  }

  function NumsOpt(s: Option<seq<real>>): (r: Option<seq<JsNum>>)
    ensures r.Some? == s.Some? && (s.Some? ==> r.value == Nums(s.value))
  {
    match s
    case None => None
    case Some(v) => Some(Nums(v))
  }

  /** `keys` lists every key of `m` exactly once: what `Object.keys` gives
      for the JSON object Go writes from a map. */
  predicate Enumerates<V>(keys: seq<string>, m: map<string, V>)
  {
    (forall i :: 0 <= i < |keys| ==> keys[i] in m) &&
    (forall k :: k in m ==> k in keys) &&
    (forall i, j :: 0 <= i < j < |keys| ==> keys[i] != keys[j])
  }

  function LinesOf(m: map<string, Option<seq<real>>>, keys: seq<string>): (r: Lines)
    requires forall i :: 0 <= i < |keys| ==> keys[i] in m
    ensures |r| == |keys|
    ensures forall i :: 0 <= i < |keys| ==> r[i] == (keys[i], NumsOpt(m[keys[i]]))
  {
    seq(|keys|, i requires 0 <= i < |keys| => (keys[i], NumsOpt(m[keys[i]])))
  }

  function MacdEntryOf(v: MacdValues): MacdEntry
  {
    MacdEntry(NumsOpt(v.histogram), NumsOpt(v.macdLine), NumsOpt(v.signalLine))
  }

  function MacdEntriesOf(m: map<string, MacdValues>, keys: seq<string>): (r: seq<(string, Option<MacdEntry>)>)
    requires forall i :: 0 <= i < |keys| ==> keys[i] in m
    ensures |r| == |keys|
    ensures forall i :: 0 <= i < |keys| ==> r[i] == (keys[i], Some(MacdEntryOf(m[keys[i]])))
  {
    seq(|keys|, i requires 0 <= i < |keys| => (keys[i], Some(MacdEntryOf(m[keys[i]]))))
  }

  function BandOf(b: BandData): Band
  {
    Band(Nums(b.upper), Nums(b.middle), Nums(b.lower), Some(b.zone))
  }

  /** The object the browser decodes from a RealtimeData message, the keys
      of each map arriving in the given order. Every field Go writes is
      present: the band objects and their zones always, the MACD values as
      objects. */
  function FromPush(d: RealtimeData, cciKeys: seq<string>, macdKeys: seq<string>, rsiKeys: seq<string>): (s: Snapshot)
    requires Enumerates(cciKeys, d.cci) && Enumerates(macdKeys, d.macd) && Enumerates(rsiKeys, d.rsi)
    ensures s.klines == d.klines && s.price == Num(d.price)
    ensures s.bollinger.Some? && s.bollinger.value.zone == Some(d.bollinger.zone)
    ensures s.envelope.Some? && s.envelope.value.zone == Some(d.envelope.zone)
  {
    Snapshot(d.klines, Num(d.price),
             Some(LinesOf(d.cci, cciKeys)), Some(MacdEntriesOf(d.macd, macdKeys)), Some(LinesOf(d.rsi, rsiKeys)),
             Some(BandOf(d.bollinger)), Some(BandOf(d.envelope)))
  }
}
