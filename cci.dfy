/** Commodity channel index over a newest-first series (pkg/indicators/cci.go):
    the distance of the price from its WMA, in units of 0.015 times the mean
    absolute deviation of the window about that WMA. */
module Cci {
  import opened Wrappers
  import opened JsMath
  import Wma

  /** Σ_{j<k} |price[i+j] − center|, in the order the loop adds terms. */
  function AbsDeviations(price: seq<real>, i: nat, k: nat, center: real): real
    requires i + k <= |price|
  {
    if k == 0 then 0.0 else AbsDeviations(price, i, k - 1, center) + AbsR(price[i + k - 1] - center)
  }

  /** Mean absolute deviation of the window at i about the WMA at i. */
  function MadAt(price: seq<real>, period: int, i: nat): real
    requires 1 <= period && i + period <= |price|
  {
    AbsDeviations(price, i, period, Wma.WmaAt(price, period, i)) * (1.0 / period as real)
  }

  function CciAt(price: seq<real>, period: int, i: nat): real
    requires 1 <= period && i + period <= |price|
  {
    var mad := MadAt(price, period, i);
    if mad == 0.0 then 0.0 else (price[i] - Wma.WmaAt(price, period, i)) / (0.015 * mad)
  }

  function MadOf(price: seq<real>, period: int): seq<real>
    requires 1 <= period <= |price|
  {
    seq(|price|, i requires 0 <= i < |price| => MadAt(price, period, Wma.Anchor(i, Wma.LastFull(|price|, period))))
  }

  function CciOf(price: seq<real>, period: int): Option<seq<real>>
    requires period >= 1
  {
    if |price| < period then None
    else Some(seq(|price|, i requires 0 <= i < |price| => CciAt(price, period, Wma.Anchor(i, Wma.LastFull(|price|, period)))))
  }

  /** The inner MAD loop: Σ |price[i+j] − center| over the window at i. */
  method SumAbsDeviations(price: seq<real>, i: nat, period: int, center: real) returns (sumDev: real)
    requires period >= 1 && i + period <= |price|
    ensures sumDev == AbsDeviations(price, i, period, center)
  {
    sumDev := 0.0;
    var j := 0;
    while j < period
      invariant 0 <= j <= period
      invariant sumDev == AbsDeviations(price, i, j, center)
    {
      sumDev := sumDev + AbsR(price[i + j] - center);
      j := j + 1;
    }
  }

  /** Entry i of a full window: the WMA the loop reads and the MAD it
      writes. */
  lemma MadStep(price: seq<real>, period: int, wma: seq<real>, i: nat)
    requires 1 <= period <= |price| && i <= |price| - period
    requires wma == Wma.WmaOf(price, period).value
    ensures wma[i] == Wma.WmaAt(price, period, i)
    ensures MadAt(price, period, i) == AbsDeviations(price, i, period, wma[i]) * (1.0 / period as real)
  {
  }

  /** The MAD loop and its tail. */
  method FillMad(price: seq<real>, period: int, wma: seq<real>, mad: array<real>)
    requires 1 <= period <= |price| && mad.Length == |price|
    requires wma == Wma.WmaOf(price, period).value
    modifies mad
    ensures mad[..] == MadOf(price, period)
  {
    var n := |price|;
    var maxI := n - period;
    var invPeriod := 1.0 / period as real;
    var i := maxI;
    while i >= 0
      invariant -1 <= i <= maxI
      invariant forall k :: i < k <= maxI ==> mad[k] == MadAt(price, period, k)
    {
      var maVal := wma[i];
      MadStep(price, period, wma, i);
      var sumDev := SumAbsDeviations(price, i, period, maVal);
      mad[i] := sumDev * invPeriod;
      i := i - 1;
    }
    if maxI < n - 1 {
      var lastMad := mad[maxI];
      var k := maxI + 1;
      while k < n
        invariant maxI + 1 <= k <= n
        invariant forall t :: 0 <= t <= maxI ==> mad[t] == MadAt(price, period, t)
        invariant forall t :: maxI < t < k ==> mad[t] == lastMad
      {
        mad[k] := lastMad;
        k := k + 1;
      }
    }
    assert mad[..] == MadOf(price, period);
  }

  /** The CCI loop and its tail. */
  method FillCci(price: seq<real>, period: int, wma: seq<real>, mad: array<real>, cci: array<real>)
    requires 1 <= period <= |price| && mad.Length == |price| && cci.Length == |price| && mad != cci
    requires wma == Wma.WmaOf(price, period).value && mad[..] == MadOf(price, period)
    modifies cci
    ensures cci[..] == CciOf(price, period).value
  {
    var n := |price|;
    var maxI := n - period;
    ghost var spec := CciOf(price, period).value;
    var cciDivisor := 0.015;
    var i := maxI;
    while i >= 0
      invariant -1 <= i <= maxI
      invariant forall k :: i < k <= maxI ==> cci[k] == spec[k]
    {
      assert mad[i] == MadAt(price, period, i) && wma[i] == Wma.WmaAt(price, period, i);
      if mad[i] == 0.0 {
        cci[i] := 0.0;
      } else {
        cci[i] := (price[i] - wma[i]) / (cciDivisor * mad[i]);
      }
      i := i - 1;
    }
    if maxI < n - 1 {
      var lastCci := cci[maxI];
      var k := maxI + 1;
      while k < n
        invariant maxI + 1 <= k <= n
        invariant forall t :: 0 <= t < k ==> cci[t] == spec[t]
      {
        cci[k] := lastCci;
        k := k + 1;
      }
    }
    assert cci[..] == spec;
  }

  /** CalculateCCI: nil for too short an input; otherwise the CCI of every
      full window, the oldest entries repeating the last one. */
  method CalculateCci(price: seq<real>, period: int) returns (r: Option<seq<real>>)
    requires period >= 1
    ensures r == CciOf(price, period)
    ensures r.None? <==> |price| < period
    ensures r.Some? ==> |r.value| == |price|
    ensures r.Some? ==> forall i :: |price| - period < i < |price| ==> r.value[i] == r.value[|price| - period]
  {
    if |price| < period {
      return None;
    }
    var wmaResult := Wma.CalculateWma(price, period);
    var wma := wmaResult.value;
    var mad := new real[|price|];
    FillMad(price, period, wma, mad);
    var cci := new real[|price|];
    FillCci(price, period, wma, mad, cci);
    r := Some(cci[..]);
  }

  /** CalculateCCIMulti: one CCI series per requested period, in order. */
  method CalculateCciMulti(price: seq<real>, periods: seq<int>) returns (result: seq<Option<seq<real>>>)
    requires forall k :: 0 <= k < |periods| ==> periods[k] >= 1
    ensures |result| == |periods|
    ensures forall k :: 0 <= k < |periods| ==> result[k] == CciOf(price, periods[k])
  {
    result := [];
    var i := 0;
    while i < |periods|
      invariant 0 <= i <= |periods|
      invariant |result| == i
      invariant forall k :: 0 <= k < i ==> result[k] == CciOf(price, periods[k])
    {
      var c := CalculateCci(price, periods[i]);
      result := result + [c];
      i := i + 1;
    }
  }

  lemma {:induction false} AbsDeviationsNonNegative(price: seq<real>, i: nat, k: nat, center: real)
    requires i + k <= |price|
    ensures AbsDeviations(price, i, k, center) >= 0.0
  {
    if k > 0 {
      AbsDeviationsNonNegative(price, i, k - 1, center);
    }
  }

  /** The mean absolute deviation is never negative. */
  lemma MadNonNegative(price: seq<real>, period: int)
    requires 1 <= period <= |price|
    ensures forall i :: 0 <= i < |price| ==> MadOf(price, period)[i] >= 0.0
  {
    forall i | 0 <= i < |price|
      ensures MadOf(price, period)[i] >= 0.0
    {
      var a := Wma.Anchor(i, Wma.LastFull(|price|, period));
      AbsDeviationsNonNegative(price, a, period, Wma.WmaAt(price, period, a));
    }
  }

  /** Where the deviation is non-zero the CCI has the sign of price − WMA;
      where it is zero the CCI is 0. */
  lemma CciSign(price: seq<real>, period: int, i: nat)
    requires 1 <= period && i + period <= |price|
    ensures MadAt(price, period, i) == 0.0 ==> CciAt(price, period, i) == 0.0
    ensures MadAt(price, period, i) != 0.0 ==>
      ((CciAt(price, period, i) > 0.0 <==> price[i] > Wma.WmaAt(price, period, i)) &&
       (CciAt(price, period, i) < 0.0 <==> price[i] < Wma.WmaAt(price, period, i)))
  {
    AbsDeviationsNonNegative(price, i, period, Wma.WmaAt(price, period, i));
    var mad := MadAt(price, period, i);
    if mad != 0.0 {
      assert 0.015 * mad > 0.0;
    }
  }
}
