/** Weighted moving average over a newest-first price series
    (pkg/indicators/wma.go). Entry i weighs price[i] (the newest in its
    window) by `period`, price[i+1] by `period-1`, … price[i+period-1] by 1;
    the oldest `period-1` entries, which have no full window, repeat the last
    full one. Envelope and Bollinger run the same loops for their middle band
    and share `FillWma`. */
module Wma {
  import opened Wrappers

  /** Σ_{j<k} price[i+j]·(period−j), summed in the order the loop adds terms. */
  function WeightedSum(price: seq<real>, i: nat, period: int, k: nat): real
    requires i + k <= |price|
  {
    if k == 0 then 0.0
    else WeightedSum(price, i, period, k - 1) + price[i + k - 1] * (period - (k - 1)) as real
  }

  lemma {:induction false} ConsecutiveProductEven(p: nat)
    ensures (p * (p + 1)) % 2 == 0
  {
    if p > 0 {
      ConsecutiveProductEven(p - 1);
      assert p * (p + 1) == (p - 1) * p + 2 * p;
    }
  }

  /** `float64(period*(period+1)/2)`: the integer division is exact, so the
      denominator is the sum of the weights 1 + 2 + … + period. */
  function Denominator(period: int): (d: real)
    requires period >= 1
    ensures d >= 1.0
    ensures 2.0 * d == (period * (period + 1)) as real
  {
    ConsecutiveProductEven(period);
    (period * (period + 1) / 2) as real
  }

  /** The last index with a full window. */
  function LastFull(n: nat, period: int): int { n - period }

  /** The index whose value entry i carries: itself, or the last full window. */
  function Anchor(i: int, last: int): int { if i <= last then i else last }

  function WmaAt(price: seq<real>, period: int, i: nat): real
    requires period >= 1 && i + period <= |price|
  {
    WeightedSum(price, i, period, period) / Denominator(period)
  }

  /** The whole WMA series, or None (Go's nil) when the input is shorter
      than the period. */
  function WmaOf(price: seq<real>, period: int): Option<seq<real>>
    requires period >= 1
  {
    if |price| < period then None
    else Some(seq(|price|, i requires 0 <= i < |price| =>
                    WmaAt(price, period, Anchor(i, LastFull(|price|, period)))))
  }

  /** Writes the WMA of `price` into `a`: the descending weighted-sum loop,
      then the back-fill of the entries past the last full window. */
  method FillWma(price: seq<real>, period: int, a: array<real>)
    requires 1 <= period <= |price| && a.Length == |price|
    modifies a
    ensures a[..] == WmaOf(price, period).value
  {
    var n := |price|;
    var maxI := n - period;
    var i := maxI;
    while i >= 0
      invariant -1 <= i <= maxI
      invariant forall k :: i < k <= maxI ==> a[k] == WmaAt(price, period, k)
    {
      var weightedSum := 0.0;
      var j := 0;
      while j < period
        invariant 0 <= j <= period
        invariant weightedSum == WeightedSum(price, i, period, j)
      {
        weightedSum := weightedSum + price[i + j] * (period - j) as real;
        j := j + 1;
      }
      a[i] := weightedSum / Denominator(period);
      i := i - 1;
    }
    if maxI < n - 1 {
      var last := a[maxI];
      var k := maxI + 1;
      while k < n
        invariant maxI + 1 <= k <= n
        invariant forall t :: 0 <= t <= maxI ==> a[t] == WmaAt(price, period, t)
        invariant forall t :: maxI < t < k ==> a[t] == last
      {
        a[k] := last;
        k := k + 1;
      }
    }
    assert a[..] == WmaOf(price, period).value;
  }

  /** CalculateWMA: nil for too short an input; otherwise one value per
      input entry, full windows first and the back-filled tail after. */
  method CalculateWma(price: seq<real>, period: int) returns (r: Option<seq<real>>)
    requires period >= 1
    ensures r == WmaOf(price, period)
    ensures r.None? <==> |price| < period
    ensures r.Some? ==> |r.value| == |price|
    ensures r.Some? ==> forall i :: 0 <= i <= |price| - period ==>
              r.value[i] == WeightedSum(price, i, period, period) / Denominator(period)
    ensures r.Some? ==> forall i :: |price| - period < i < |price| ==>
              r.value[i] == r.value[|price| - period]
  {
    if |price| < period {
      return None;
    }
    var a := new real[|price|];
    FillWma(price, period, a);
    r := Some(a[..]);
  }

  /** Σ_{j<k} (period − j). */
  function WeightTotal(period: int, k: nat): real
  {
    if k == 0 then 0.0 else WeightTotal(period, k - 1) + (period - (k - 1)) as real
  }

  lemma {:induction false} WeightTotalClosedForm(period: int, k: nat)
    ensures 2.0 * WeightTotal(period, k) == (2 * k * period - k * (k - 1)) as real
  {
    if k > 0 {
      WeightTotalClosedForm(period, k - 1);
      var j := k - 1;
      assert 2 * k * period == 2 * j * period + 2 * period;
      assert k * (k - 1) == j * (j - 1) + 2 * j;
      var prev := 2 * j * period - j * (j - 1);
      assert 2 * k * period - k * (k - 1) == prev + 2 * (period - j);
      assert ((prev + 2 * (period - j)) as real) == prev as real + 2.0 * (period - j) as real;
    }
  }

  lemma {:induction false} WeightedSumOfConstant(price: seq<real>, i: nat, period: int, k: nat, c: real)
    requires i + k <= |price|
    requires forall j :: i <= j < i + k ==> price[j] == c
    ensures WeightedSum(price, i, period, k) == c * WeightTotal(period, k)
  {
    if k > 0 {
      WeightedSumOfConstant(price, i, period, k - 1, c);
    }
  }

  /** The weights sum to the denominator, so a constant series is its own
      weighted average, tail included. */
  lemma WmaOfConstant(price: seq<real>, period: int, c: real)
    requires period >= 1 && |price| >= period
    requires forall j :: 0 <= j < |price| ==> price[j] == c
    ensures forall i :: 0 <= i < |price| ==> WmaOf(price, period).value[i] == c
  {
    WeightTotalClosedForm(period, period);
    assert 2 * period * period - period * (period - 1) == period * (period + 1);
    assert WeightTotal(period, period) == Denominator(period);
    forall i | 0 <= i < |price|
      ensures WmaOf(price, period).value[i] == c
    {
      var a := Anchor(i, LastFull(|price|, period));
      WeightedSumOfConstant(price, a, period, period, c);
    }
  }

  lemma {:induction false} WeightedSumNonNegative(price: seq<real>, i: nat, period: int, k: nat)
    requires i + k <= |price| && k <= period
    requires forall j :: i <= j < i + k ==> price[j] >= 0.0
    ensures WeightedSum(price, i, period, k) >= 0.0
  {
    if k > 0 {
      WeightedSumNonNegative(price, i, period, k - 1);
    }
  }

  /** Every weight is positive, so the average of a non-negative series is
      non-negative (the RSI gains and losses rely on this). */
  lemma WmaNonNegative(price: seq<real>, period: int)
    requires period >= 1 && |price| >= period
    requires forall j :: 0 <= j < |price| ==> price[j] >= 0.0
    ensures forall i :: 0 <= i < |price| ==> WmaOf(price, period).value[i] >= 0.0
  {
    forall i | 0 <= i < |price|
      ensures WmaOf(price, period).value[i] >= 0.0
    {
      WeightedSumNonNegative(price, Anchor(i, LastFull(|price|, period)), period, period);
    }
  }
}
