/** Percentage envelope around the WMA (pkg/indicators/envelope.go): the
    middle line is the WMA, the outer lines are the middle scaled by
    1 ± deviationPercent/100. */
module Envelope {
  import opened Wrappers
  import opened Channel
  import Wma

  /** The middle line scaled by `mult`, entries past `maxI` using `maxI`. */
  function Scaled(mid: seq<real>, maxI: int, mult: real): seq<real>
    requires 0 <= maxI < |mid|
  {
    seq(|mid|, i requires 0 <= i < |mid| => mid[Wma.Anchor(i, maxI)] * mult)
  }

  function EnvelopeOf(price: seq<real>, period: int, deviationPercent: real): Option<Bands>
    requires period >= 1
  {
    if |price| < period then None
    else
      var mid := Wma.WmaOf(price, period).value;
      var maxI := Wma.LastFull(|price|, period);
      var deviation := deviationPercent / 100.0;
      Some(Bands(Scaled(mid, maxI, 1.0 + deviation), mid, Scaled(mid, maxI, 1.0 - deviation)))
  }

  /** The band loop up to the last full window, then the tail that reuses it. */
  method FillBands(middle: array<real>, maxI: int, multUpper: real, multLower: real, upper: array<real>, lower: array<real>)
    requires 0 <= maxI < middle.Length && upper.Length == middle.Length && lower.Length == middle.Length
    requires upper != middle && lower != middle && upper != lower
    modifies upper, lower
    ensures upper[..] == Scaled(middle[..], maxI, multUpper)
    ensures lower[..] == Scaled(middle[..], maxI, multLower)
  {
    var n := middle.Length;
    ghost var up := Scaled(middle[..], maxI, multUpper);
    ghost var low := Scaled(middle[..], maxI, multLower);
    var i := 0;
    while i <= maxI
      invariant 0 <= i <= maxI + 1
      invariant forall k :: 0 <= k < i ==> upper[k] == up[k] && lower[k] == low[k]
    {
      upper[i] := middle[i] * multUpper;
      lower[i] := middle[i] * multLower;
      i := i + 1;
    }
    if maxI < n - 1 {
      var k := maxI + 1;
      while k < n
        invariant maxI + 1 <= k <= n
        invariant forall t :: 0 <= t < k ==> upper[t] == up[t] && lower[t] == low[t]
      {
        upper[k] := middle[maxI] * multUpper;
        lower[k] := middle[maxI] * multLower;
        k := k + 1;
      }
    }
    assert upper[..] == up;
    assert lower[..] == low;
  }

  /** CalculateEnvelope: the inline WMA loop for the middle line, then the
      two outer lines. */
  method CalculateEnvelope(price: seq<real>, period: int, deviationPercent: real) returns (r: Option<Bands>)
    requires period >= 1
    ensures r == EnvelopeOf(price, period, deviationPercent)
    ensures r.None? <==> |price| < period
    ensures r.Some? ==> r.value.HasLength(|price|) && r.value.middle == Wma.WmaOf(price, period).value
  {
    if |price| < period {
      return None;
    }
    var n := |price|;
    var upper := new real[n];
    var middle := new real[n];
    var lower := new real[n];
    Wma.FillWma(price, period, middle);
    var deviation := deviationPercent / 100.0;
    FillBands(middle, n - period, 1.0 + deviation, 1.0 - deviation, upper, lower);
    r := Some(Bands(upper[..], middle[..], lower[..]));
  }

  /** Every entry, tail included, is the middle line scaled by 1 ± d/100,
      so the envelope is symmetric about its middle. */
  lemma EnvelopeShape(price: seq<real>, period: int, deviationPercent: real)
    requires period >= 1 && |price| >= period
    ensures var b := EnvelopeOf(price, period, deviationPercent).value;
      b.HasLength(|price|) &&
      (forall i :: 0 <= i < |price| ==>
         b.upper[i] == b.middle[i] * (1.0 + deviationPercent / 100.0) &&
         b.lower[i] == b.middle[i] * (1.0 - deviationPercent / 100.0)) &&
      b.Symmetric()
  {
  }

  /** With a non-negative deviation and a non-negative price series the
      envelope is ordered: lower ≤ middle ≤ upper. */
  lemma EnvelopeOrdered(price: seq<real>, period: int, deviationPercent: real)
    requires period >= 1 && |price| >= period
    requires 0.0 <= deviationPercent
    requires forall j :: 0 <= j < |price| ==> price[j] >= 0.0
    ensures EnvelopeOf(price, period, deviationPercent).value.Ordered()
  {
    Wma.WmaNonNegative(price, period);
    var b := EnvelopeOf(price, period, deviationPercent).value;
    forall i | 0 <= i < |price|
      ensures b.lower[i] <= b.middle[i] <= b.upper[i]
    {
      var m := b.middle[i];
      var d := deviationPercent / 100.0;
      assert m == b.middle[Wma.Anchor(i, Wma.LastFull(|price|, period))];
      assert m * (1.0 - d) == m - m * d && m * (1.0 + d) == m + m * d;
      assert m * d >= 0.0;
    }
  }
}
