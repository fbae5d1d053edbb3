/** The typical price (high + low + close) / 3 that every indicator is fed
    (pkg/indicators/price.go). */
module Hlcc {
  import opened Wrappers

  /** One entry of the typical-price series; it stays inside the bar's
      range whenever the close does. */
  function Typical(high: real, low: real, close: real): (t: real)
    ensures low <= close <= high ==> low <= t <= high
    ensures 3.0 * t == high + low + close
  {
    (high + low + close) * (1.0 / 3.0)
  }

  /** The typical-price series, or None (Go's nil) for mismatched lengths. */
  function HlccOf(high: seq<real>, low: seq<real>, close: seq<real>): Option<seq<real>>
  {
    if |high| != |low| || |high| != |close| then None
    else Some(seq(|high|, i requires 0 <= i < |high| => Typical(high[i], low[i], close[i])))
  }

  /** CalculateHLCC: nil when the three series have different lengths,
      otherwise the pointwise typical price. */
  method CalculateHlcc(high: seq<real>, low: seq<real>, close: seq<real>) returns (r: Option<seq<real>>)
    ensures r == HlccOf(high, low, close)
    ensures r.None? <==> (|high| != |low| || |high| != |close|)
    ensures r.Some? ==> |r.value| == |high|
    ensures r.Some? ==> forall i :: 0 <= i < |high| ==> r.value[i] == Typical(high[i], low[i], close[i])
  {
    if |high| != |low| || |high| != |close| {
      return None;
    }
    var hlcc := new real[|high|];
    var i := 0;
    while i < |high|
      invariant 0 <= i <= |high|
      invariant forall k :: 0 <= k < i ==> hlcc[k] == Typical(high[k], low[k], close[k])
    {
      hlcc[i] := Typical(high[i], low[i], close[i]);
      i := i + 1;
    }
    assert hlcc[..] == HlccOf(high, low, close).value;
    r := Some(hlcc[..]);
  }
}
