/** Bollinger bands around the WMA (pkg/indicators/bollinger.go): the middle
    line is the WMA; the band width is `deviation` times the population
    standard deviation of the window about the window's simple mean, kept
    with a rolling window sum. `math.Sqrt` is the parameter `sqrt`. */
module Bollinger {
  import opened Wrappers
  import opened Channel
  import Wma
  import Sma

  /** Σ_{j<k} (price[i+j] − mean)², in the order the loop adds terms. */
  function SquaredDeviations(price: seq<real>, i: nat, k: nat, mean: real): real
    requires i + k <= |price|
  {
    if k == 0 then 0.0
    else
      var d := price[i + k - 1] - mean;
      SquaredDeviations(price, i, k - 1, mean) + d * d
  }

  function WindowMean(price: seq<real>, period: int, i: nat): real
    requires period >= 1 && i + period <= |price|
  {
    Sma.WindowSum(price, i, period) * (1.0 / period as real)
  }

  /** The standard deviation of the window starting at i. */
  function StdAt(price: seq<real>, period: int, i: nat, sqrt: real -> real): real
    requires period >= 1 && i + period <= |price|
  {
    sqrt(SquaredDeviations(price, i, period, WindowMean(price, period, i)) * (1.0 / period as real))
  }

  function StdOf(price: seq<real>, period: int, sqrt: real -> real): seq<real>
    requires 1 <= period <= |price|
  {
    seq(|price|, i requires 0 <= i < |price| =>
          StdAt(price, period, Wma.Anchor(i, Wma.LastFull(|price|, period)), sqrt))
  }

  /** Middle ± deviation·std, entries past `maxI` using `maxI`. */
  function Offset(mid: seq<real>, std: seq<real>, maxI: int, deviation: real, above: bool): seq<real>
    requires 0 <= maxI < |mid| && |std| == |mid|
  {
    seq(|mid|, i requires 0 <= i < |mid| =>
          var a := Wma.Anchor(i, maxI);
          if above then mid[a] + deviation * std[a] else mid[a] - deviation * std[a])
  }

  function BollingerOf(price: seq<real>, period: int, deviation: real, sqrt: real -> real): Option<Bands>
    requires period >= 1
  {
    if |price| < period then None
    else
      var mid := Wma.WmaOf(price, period).value;
      var std := StdOf(price, period, sqrt);
      var maxI := Wma.LastFull(|price|, period);
      Some(Bands(Offset(mid, std, maxI, deviation, true), mid, Offset(mid, std, maxI, deviation, false)))
  }

  lemma {:induction false} WindowSumFront(price: seq<real>, i: nat, k: nat)
    requires i + k + 1 <= |price|
    ensures Sma.WindowSum(price, i, k + 1) == price[i] + Sma.WindowSum(price, i + 1, k)
  {
    if k > 0 {
      WindowSumFront(price, i, k - 1);
    }
  }

  /** One step of the rolling window: dropping the oldest term and adding
      the newest gives the sum of the window one index newer. */
  lemma WindowSlide(price: seq<real>, i: nat, period: int)
    requires period >= 1 && i + period + 1 <= |price|
    ensures Sma.WindowSum(price, i, period) == Sma.WindowSum(price, i + 1, period) - price[i + period] + price[i]
  {
    WindowSumFront(price, i, period - 1);
    assert Sma.WindowSum(price, i + 1, period) == Sma.WindowSum(price, i + 1, period - 1) + price[i + period];
  }

  /** The inner loop: Σ (price[j] − mean)² over the window at i. */
  method SumSquares(price: seq<real>, i: nat, period: int, mean: real) returns (sumSq: real)
    requires period >= 1 && i + period <= |price|
    ensures sumSq == SquaredDeviations(price, i, period, mean)
  {
    sumSq := 0.0;
    var j := i;
    while j < i + period
      invariant i <= j <= i + period
      invariant sumSq == SquaredDeviations(price, i, j - i, mean)
    {
      var diff := price[j] - mean;
      sumSq := sumSq + diff * diff;
      j := j + 1;
    }
  }

  /** The standard deviation of the window at i, from its running sum. */
  method WindowStd(price: seq<real>, i: nat, period: int, windowSum: real, sqrt: real -> real) returns (s: real)
    requires period >= 1 && i + period <= |price|
    requires windowSum == Sma.WindowSum(price, i, period)
    ensures s == StdAt(price, period, i, sqrt)
  {
    var invPeriod := 1.0 / period as real;
    var windowSma := windowSum * invPeriod;
    var sumSq := SumSquares(price, i, period, windowSma);
    assert windowSma == WindowMean(price, period, i);
    var x := sumSq * invPeriod;
    assert x == SquaredDeviations(price, i, period, WindowMean(price, period, i)) * (1.0 / period as real);
    s := sqrt(x);
  }

  /** The standard-deviation loops: the first (oldest) full window summed
      directly, every newer one from the rolling sum, then the tail. */
  method FillStd(price: seq<real>, period: int, sqrt: real -> real, std: array<real>)
    requires 1 <= period <= |price| && std.Length == |price|
    modifies std
    ensures std[..] == StdOf(price, period, sqrt)
  {
    var n := |price|;
    var maxI := n - period;
    ghost var spec := StdOf(price, period, sqrt);
    var windowSum := 0.0;
    var firstI := maxI;
    var firstEnd := firstI + period;
    var j := firstI;
    while j < firstEnd
      invariant firstI <= j <= firstEnd
      invariant windowSum == Sma.WindowSum(price, firstI, j - firstI)
    {
      windowSum := windowSum + price[j];
      j := j + 1;
    }
    var s := WindowStd(price, firstI, period, windowSum, sqrt);
    std[firstI] := s;
    var i := firstI - 1;
    while i >= 0
      invariant -1 <= i < maxI
      invariant windowSum == Sma.WindowSum(price, i + 1, period)
      invariant forall k :: i < k <= maxI ==> std[k] == spec[k]
    {
      WindowSlide(price, i, period);
      windowSum := windowSum - price[i + period] + price[i];
      s := WindowStd(price, i, period, windowSum, sqrt);
      std[i] := s;
      i := i - 1;
    }
    if maxI < n - 1 {
      var lastStd := std[maxI];
      var k := maxI + 1;
      while k < n
        invariant maxI + 1 <= k <= n
        invariant forall t :: 0 <= t < k ==> std[t] == spec[t]
      {
        std[k] := lastStd;
        k := k + 1;
      }
    }
    assert std[..] == spec;
  }

  /** The band loops: middle ± deviation·std up to the last full window,
      then the tail that reuses it. */
  method FillBands(middle: array<real>, std: array<real>, maxI: int, deviation: real, upper: array<real>, lower: array<real>)
    requires 0 <= maxI < middle.Length && std.Length == middle.Length
    requires upper.Length == middle.Length && lower.Length == middle.Length
    requires upper != middle && lower != middle && upper != lower && upper != std && lower != std
    modifies upper, lower
    ensures upper[..] == Offset(middle[..], std[..], maxI, deviation, true)
    ensures lower[..] == Offset(middle[..], std[..], maxI, deviation, false)
  {
    var n := middle.Length;
    ghost var up := Offset(middle[..], std[..], maxI, deviation, true);
    ghost var low := Offset(middle[..], std[..], maxI, deviation, false);
    var i := 0;
    while i <= maxI
      invariant 0 <= i <= maxI + 1
      invariant forall k :: 0 <= k < i ==> upper[k] == up[k] && lower[k] == low[k]
    {
      var devValue := deviation * std[i];
      upper[i] := middle[i] + devValue;
      lower[i] := middle[i] - devValue;
      assert up[i] == upper[i] && low[i] == lower[i];
      i := i + 1;
    }
    if maxI < n - 1 {
      var k := maxI + 1;
      while k < n
        invariant maxI + 1 <= k <= n
        invariant forall t :: 0 <= t < k ==> upper[t] == up[t] && lower[t] == low[t]
      {
        var devValue := deviation * std[maxI];
        upper[k] := middle[maxI] + devValue;
        lower[k] := middle[maxI] - devValue;
        k := k + 1;
      }
    }
    assert upper[..] == up;
    assert lower[..] == low;
  }

  /** CalculateBollinger: nil for too short an input; otherwise the WMA
      middle line and the two bands at ± deviation standard deviations. */
  method CalculateBollinger(price: seq<real>, period: int, deviation: real, sqrt: real -> real) returns (r: Option<Bands>)
    requires period >= 1
    ensures r == BollingerOf(price, period, deviation, sqrt)
    ensures r.None? <==> |price| < period
    ensures r.Some? ==> r.value.HasLength(|price|) && r.value.middle == Wma.WmaOf(price, period).value
  {
    if |price| < period {
      return None;
    }
    var n := |price|;
    var upper := new real[n];
    var middle := new real[n];
    var lower := new real[n];
    Wma.FillWma(price, period, middle);
    var std := new real[n];
    FillStd(price, period, sqrt, std);
    FillBands(middle, std, n - period, deviation, upper, lower);
    r := Some(Bands(upper[..], middle[..], lower[..]));
  }

  /** The bands are symmetric about the middle line; with a non-negative
      deviation and a square root that never returns a negative number
      they are also ordered. */
  lemma BollingerShape(price: seq<real>, period: int, deviation: real, sqrt: real -> real)
    requires period >= 1 && |price| >= period
    ensures var b := BollingerOf(price, period, deviation, sqrt).value;
      b.HasLength(|price|) && b.Symmetric()
  {
  }

  lemma BollingerOrdered(price: seq<real>, period: int, deviation: real, sqrt: real -> real)
    requires period >= 1 && |price| >= period
    requires deviation >= 0.0
    requires forall x :: sqrt(x) >= 0.0
    ensures BollingerOf(price, period, deviation, sqrt).value.Ordered()
  {
    var b := BollingerOf(price, period, deviation, sqrt).value;
    var std := StdOf(price, period, sqrt);
    forall i | 0 <= i < |price|
      ensures b.lower[i] <= b.middle[i] <= b.upper[i]
    {
      var a := Wma.Anchor(i, Wma.LastFull(|price|, period));
      assert std[a] >= 0.0;
      assert deviation * std[a] >= 0.0;
      assert b.middle[i] == b.middle[a];
    }
  }
}
