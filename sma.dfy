/** Simple moving average over a newest-first series (pkg/indicators/sma.go):
    the mean of the window price[i..i+period), with the oldest entries
    repeating the last full window as in the WMA. */
module Sma {
  import opened Wrappers
  import Wma

  /** Σ_{j<k} price[i+j], in the order the loop adds terms. */
  function WindowSum(price: seq<real>, i: nat, k: nat): real
    requires i + k <= |price|
  {
    if k == 0 then 0.0 else WindowSum(price, i, k - 1) + price[i + k - 1]
  }

  function SmaAt(price: seq<real>, period: int, i: nat): real
    requires period >= 1 && i + period <= |price|
  {
    WindowSum(price, i, period) * (1.0 / period as real)
  }

  function SmaOf(price: seq<real>, period: int): Option<seq<real>>
    requires period >= 1
  {
    if |price| < period then None
    else Some(seq(|price|, i requires 0 <= i < |price| =>
                    SmaAt(price, period, Wma.Anchor(i, Wma.LastFull(|price|, period)))))
  }

  /** CalculateSMA: nil for too short an input, otherwise the window means
      with the back-filled tail. */
  method CalculateSma(price: seq<real>, period: int) returns (r: Option<seq<real>>)
    requires period >= 1
    ensures r == SmaOf(price, period)
    ensures r.None? <==> |price| < period
    ensures r.Some? ==> |r.value| == |price|
    ensures r.Some? ==> forall i :: |price| - period < i < |price| ==>
              r.value[i] == r.value[|price| - period]
  {
    if |price| < period {
      return None;
    }
    var n := |price|;
    var sma := new real[n];
    var invPeriod := 1.0 / period as real;
    var maxI := n - period;
    var i := maxI;
    while i >= 0
      invariant -1 <= i <= maxI
      invariant forall k :: i < k <= maxI ==> sma[k] == SmaAt(price, period, k)
    {
      var sum := 0.0;
      var j := 0;
      while j < period
        invariant 0 <= j <= period
        invariant sum == WindowSum(price, i, j)
      {
        sum := sum + price[i + j];
        j := j + 1;
      }
      sma[i] := sum * invPeriod;
      i := i - 1;
    }
    if maxI < n - 1 {
      var last := sma[maxI];
      var k := maxI + 1;
      while k < n
        invariant maxI + 1 <= k <= n
        invariant forall t :: 0 <= t <= maxI ==> sma[t] == SmaAt(price, period, t)
        invariant forall t :: maxI < t < k ==> sma[t] == last
      {
        sma[k] := last;
        k := k + 1;
      }
    }
    assert sma[..] == SmaOf(price, period).value;
    r := Some(sma[..]);
  }

  lemma {:induction false} WindowSumBounds(price: seq<real>, i: nat, k: nat, lo: real, hi: real)
    requires i + k <= |price|
    requires forall j :: i <= j < i + k ==> lo <= price[j] <= hi
    ensures k as real * lo <= WindowSum(price, i, k) <= k as real * hi
  {
    if k > 0 {
      WindowSumBounds(price, i, k - 1, lo, hi);
      assert k as real * lo == (k - 1) as real * lo + lo;
      assert k as real * hi == (k - 1) as real * hi + hi;
    }
  }

  /** A window mean lies between any lower and upper bound of its window,
      so between the window's minimum and maximum. */
  lemma SmaWithinWindow(price: seq<real>, period: int, i: nat, lo: real, hi: real)
    requires period >= 1 && i + period <= |price|
    requires forall j :: i <= j < i + period ==> lo <= price[j] <= hi
    ensures lo <= SmaAt(price, period, i) <= hi
  {
    WindowSumBounds(price, i, period, lo, hi);
    var p := period as real;
    var s := WindowSum(price, i, period);
    assert s * (1.0 / p) == s / p;
    assert p * lo / p == lo && p * hi / p == hi;
  }
}
