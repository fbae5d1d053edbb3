/** MACD over a newest-first series (pkg/indicators/macd.go): the difference
    of a fast and a slow WMA; the MACD line at i averages the two older
    differences i+1 and i+2; the signal line is the WMA of the MACD line and
    the histogram is the difference itself. Entries past the last full
    window stay 0. */
module Macd {
  import opened Wrappers
  import Wma

  datatype MacdLines = MacdLines(macdLine: seq<real>, signalLine: Option<seq<real>>, histogram: seq<real>)

  function DiffOf(price: seq<real>, fast: int, slow: int): seq<real>
    requires 1 <= fast <= |price| && 1 <= slow <= |price|
  {
    var fw := Wma.WmaOf(price, fast).value;
    var sw := Wma.WmaOf(price, slow).value;
    seq(|price|, i requires 0 <= i < |price| => if i <= |price| - slow then fw[i] - sw[i] else 0.0)
  }

  /** The MACD line entry at i: the mean of the two older differences when
      both exist, the one older difference when only it exists, else the
      difference at i. */
  function MacdAt(diff: seq<real>, i: nat): real
    requires i < |diff|
  {
    if i + 2 < |diff| then (diff[i + 1] + diff[i + 2]) * 0.5
    else if i + 1 < |diff| then diff[i + 1]
    else diff[i]
  }

  function MacdLineOf(diff: seq<real>, signal: int): seq<real>
    requires signal >= 1
  {
    seq(|diff|, i requires 0 <= i < |diff| => if i <= |diff| - signal then MacdAt(diff, i) else 0.0)
  }

  function MacdOf(price: seq<real>, fast: int, slow: int, signal: int): Option<MacdLines>
    requires fast >= 1 && slow >= 1 && signal >= 1
  {
    if |price| < slow || |price| < fast then None
    else
      var diff := DiffOf(price, fast, slow);
      var line := MacdLineOf(diff, signal);
      Some(MacdLines(line, Wma.WmaOf(line, signal), diff))
  }

  /** The difference loop; entries past `len - slow` keep the zero of `make`. */
  method FillDiff(fastWma: seq<real>, slowWma: seq<real>, maxDiffI: int, diff: array<real>)
    requires |fastWma| == |slowWma| == diff.Length && 0 <= maxDiffI < diff.Length
    requires forall k :: 0 <= k < diff.Length ==> diff[k] == 0.0
    modifies diff
    ensures forall k :: 0 <= k < diff.Length ==> diff[k] == if k <= maxDiffI then fastWma[k] - slowWma[k] else 0.0
  {
    var i := maxDiffI;
    while i >= 0
      invariant -1 <= i <= maxDiffI
      invariant forall k :: 0 <= k < diff.Length ==> diff[k] == if i < k <= maxDiffI then fastWma[k] - slowWma[k] else 0.0
    {
      diff[i] := fastWma[i] - slowWma[i];
      i := i - 1;
    }
  }

  /** The MACD-line loop; entries past `len - signal` keep the zero of `make`. */
  method FillMacdLine(diff: seq<real>, signal: int, line: array<real>)
    requires signal >= 1 && line.Length == |diff|
    requires forall k :: 0 <= k < line.Length ==> line[k] == 0.0
    modifies line
    ensures line[..] == MacdLineOf(diff, signal)
  {
    var maxMacdI := |diff| - signal;
    var i := maxMacdI;
    while i >= 0
      invariant if maxMacdI < -1 then i == maxMacdI else -1 <= i <= maxMacdI
      invariant forall k :: 0 <= k < line.Length ==> line[k] == if i < k <= maxMacdI then MacdAt(diff, k) else 0.0
    {
      if i + 2 < |diff| {
        line[i] := (diff[i + 1] + diff[i + 2]) * 0.5;
      } else if i + 1 < |diff| {
        line[i] := diff[i + 1];
      } else {
        line[i] := diff[i];
      }
      i := i - 1;
    }
    assert line[..] == MacdLineOf(diff, signal);
  }

  /** The histogram loop: a copy of the difference up to `len - slow`. */
  method FillHistogram(diff: array<real>, maxDiffI: int, histogram: array<real>)
    requires diff.Length == histogram.Length && 0 <= maxDiffI < diff.Length && diff != histogram
    requires forall k :: 0 <= k < diff.Length ==> histogram[k] == 0.0
    requires forall k :: maxDiffI < k < diff.Length ==> diff[k] == 0.0
    modifies histogram
    ensures histogram[..] == diff[..]
  {
    var n := diff.Length;
    var i := 0;
    while i <= maxDiffI
      invariant 0 <= i <= maxDiffI + 1
      invariant forall k :: 0 <= k < n ==> histogram[k] == if k < i then diff[k] else 0.0
    {
      histogram[i] := diff[i];
      i := i + 1;
    }
    assert histogram[..] == diff[..];
  }

  /** CalculateMACD: nil when the input is shorter than either period;
      otherwise the MACD line, its signal line (nil when the input is
      shorter than the signal period) and the histogram, which equals the
      difference of the two averages. */
  method CalculateMacd(price: seq<real>, fast: int, slow: int, signal: int) returns (r: Option<MacdLines>)
    requires fast >= 1 && slow >= 1 && signal >= 1
    ensures r == MacdOf(price, fast, slow, signal)
    ensures r.None? <==> (|price| < slow || |price| < fast)
    ensures r.Some? ==> |r.value.macdLine| == |price| && |r.value.histogram| == |price|
    ensures r.Some? ==> forall i :: 0 <= i < |price| ==>
      r.value.histogram[i] == if i <= |price| - slow
        then Wma.WmaOf(price, fast).value[i] - Wma.WmaOf(price, slow).value[i] else 0.0
    ensures r.Some? ==> (r.value.signalLine.None? <==> |price| < signal)
  {
    if |price| < slow {
      return None;
    }
    var fastWma := Wma.CalculateWma(price, fast);
    var slowWma := Wma.CalculateWma(price, slow);
    if fastWma.None? || slowWma.None? {
      return None;
    }
    var n := |price|;
    var diff := new real[n](_ => 0.0);
    var maxDiffI := n - slow;
    FillDiff(fastWma.value, slowWma.value, maxDiffI, diff);
    assert diff[..] == DiffOf(price, fast, slow);
    var line := new real[n](_ => 0.0);
    FillMacdLine(diff[..], signal, line);
    var signalLine := Wma.CalculateWma(line[..], signal);
    var histogram := new real[n](_ => 0.0);
    FillHistogram(diff, maxDiffI, histogram);
    r := Some(MacdLines(line[..], signalLine, histogram[..]));
  }

  /** CalculateMACDMulti: one slot per configuration; a configuration with
      fewer than three numbers leaves its slot nil, any other holds the
      (possibly all-nil) MACD of its first three numbers. */
  method CalculateMacdMulti(price: seq<real>, configs: seq<seq<int>>) returns (result: seq<Option<Option<MacdLines>>>)
    requires forall k :: 0 <= k < |configs| && |configs[k]| >= 3 ==>
      configs[k][0] >= 1 && configs[k][1] >= 1 && configs[k][2] >= 1
    ensures |result| == |configs|
    ensures forall k :: 0 <= k < |configs| ==>
      result[k] == if |configs[k]| >= 3
        then Some(MacdOf(price, configs[k][0], configs[k][1], configs[k][2])) else None
  {
    result := [];
    var i := 0;
    while i < |configs|
      invariant 0 <= i <= |configs|
      invariant |result| == i
      invariant forall k :: 0 <= k < i ==>
        result[k] == if |configs[k]| >= 3
          then Some(MacdOf(price, configs[k][0], configs[k][1], configs[k][2])) else None
    {
      var config := configs[i];
      if |config| >= 3 {
        var m := CalculateMacd(price, config[0], config[1], config[2]);
        result := result + [Some(m)];
      } else {
        result := result + [None];
      }
      i := i + 1;
    }
  }

  /** A flat price series has equal fast and slow averages, so its MACD
      line, signal line and histogram are all 0. */
  lemma MacdOfConstant(price: seq<real>, fast: int, slow: int, signal: int, c: real)
    requires 1 <= fast <= |price| && 1 <= slow <= |price| && 1 <= signal <= |price|
    requires forall j :: 0 <= j < |price| ==> price[j] == c
    ensures var m := MacdOf(price, fast, slow, signal).value;
      (forall i :: 0 <= i < |price| ==> m.macdLine[i] == 0.0 && m.histogram[i] == 0.0) &&
      m.signalLine.Some? && (forall i :: 0 <= i < |price| ==> m.signalLine.value[i] == 0.0)
  {
    Wma.WmaOfConstant(price, fast, c);
    Wma.WmaOfConstant(price, slow, c);
    var diff := DiffOf(price, fast, slow);
    assert forall i :: 0 <= i < |price| ==> diff[i] == 0.0;
    var line := MacdLineOf(diff, signal);
    assert forall i :: 0 <= i < |price| ==> line[i] == 0.0;
    Wma.WmaOfConstant(line, signal, 0.0);
  }
}
