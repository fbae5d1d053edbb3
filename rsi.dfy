/** Relative strength index over a newest-first series (pkg/indicators/rsi.go):
    per-step gains and losses (price[i] against the older price[i+1]),
    averaged with the WMA, and 100 − 100/(1 + gain/loss). */
module Rsi {
  import opened Wrappers
  import Wma

  /** The change from the older entry i+1 to entry i, split into its
      positive part (gain) and negative part (loss); the oldest entry has
      no older neighbour and gets 0 for both. */
  function GainAt(price: seq<real>, i: nat): real
    requires i < |price|
  {
    if i + 1 < |price| && price[i] - price[i + 1] > 0.0 then price[i] - price[i + 1] else 0.0
  }

  function LossAt(price: seq<real>, i: nat): real
    requires i < |price|
  {
    if i + 1 < |price| && !(price[i] - price[i + 1] > 0.0) then -(price[i] - price[i + 1]) else 0.0
  }

  function GainsOf(price: seq<real>): seq<real>
  {
    seq(|price|, i requires 0 <= i < |price| => GainAt(price, i))
  }

  function LossesOf(price: seq<real>): seq<real>
  {
    seq(|price|, i requires 0 <= i < |price| => LossAt(price, i))
  }

  lemma ChangesNonNegative(price: seq<real>)
    ensures forall j :: 0 <= j < |price| ==> GainsOf(price)[j] >= 0.0 && LossesOf(price)[j] >= 0.0
  {
  }

  /** `rs` is 100 when the average loss is 0. Averages of gains and of
      losses are never negative, so 1 + rs is never 0. */
  function RsiAt(avgGain: real, avgLoss: real): real
    requires avgGain >= 0.0 && avgLoss >= 0.0
  {
    var rs := if avgLoss == 0.0 then 100.0 else avgGain / avgLoss;
    100.0 - 100.0 / (1.0 + rs)
  }

  function RsiOf(price: seq<real>, period: int): Option<seq<real>>
    requires period >= 1
  {
    if |price| < period + 1 then None
    else
      var avgGain := Wma.WmaOf(GainsOf(price), period).value;
      var avgLoss := Wma.WmaOf(LossesOf(price), period).value;
      ChangesNonNegative(price);
      Wma.WmaNonNegative(GainsOf(price), period);
      Wma.WmaNonNegative(LossesOf(price), period);
      var maxI := Wma.LastFull(|price|, period);
      Some(seq(|price|, i requires 0 <= i < |price| =>
                 RsiAt(avgGain[Wma.Anchor(i, maxI)], avgLoss[Wma.Anchor(i, maxI)])))
  }

  /** The price-change loop, newest change last: gains and losses are
      non-negative, never both positive, and their difference is the change. */
  method PriceChanges(price: seq<real>) returns (gains: seq<real>, losses: seq<real>)
    requires |price| >= 2
    ensures gains == GainsOf(price) && losses == LossesOf(price)
    ensures forall i :: 0 <= i < |price| ==> gains[i] >= 0.0 && losses[i] >= 0.0 && gains[i] * losses[i] == 0.0
    ensures forall i :: 0 <= i < |price| - 1 ==> gains[i] - losses[i] == price[i] - price[i + 1]
    ensures gains[|price| - 1] == 0.0 && losses[|price| - 1] == 0.0
  {
    var n := |price|;
    var g := new real[n](_ => 0.0);
    var l := new real[n](_ => 0.0);
    var calcEnd := n - 2;
    var i := calcEnd;
    while i >= 0
      invariant -1 <= i <= calcEnd
      invariant forall k :: i < k <= calcEnd ==> g[k] == GainAt(price, k) && l[k] == LossAt(price, k)
      invariant g[n - 1] == 0.0 && l[n - 1] == 0.0
    {
      var change := price[i] - price[i + 1];
      if change > 0.0 {
        g[i] := change;
        l[i] := 0.0;
      } else {
        g[i] := 0.0;
        l[i] := -change;
      }
      i := i - 1;
    }
    gains := g[..];
    losses := l[..];
    assert gains == GainsOf(price);
    assert losses == LossesOf(price);
  }

  /** The RSI loop and its tail. */
  method FillRsi(avgGain: seq<real>, avgLoss: seq<real>, maxI: int, rsi: array<real>)
    requires |avgGain| == |avgLoss| == rsi.Length && 0 <= maxI < rsi.Length
    requires forall j :: 0 <= j < rsi.Length ==> avgGain[j] >= 0.0 && avgLoss[j] >= 0.0
    modifies rsi
    ensures forall i :: 0 <= i < rsi.Length ==> rsi[i] == RsiAt(avgGain[Wma.Anchor(i, maxI)], avgLoss[Wma.Anchor(i, maxI)])
  {
    var n := rsi.Length;
    var i := maxI;
    while i >= 0
      invariant -1 <= i <= maxI
      invariant forall k :: i < k <= maxI ==> rsi[k] == RsiAt(avgGain[k], avgLoss[k])
    {
      var rs: real;
      if avgLoss[i] == 0.0 {
        rs := 100.0;
      } else {
        rs := avgGain[i] / avgLoss[i];
      }
      rsi[i] := 100.0 - (100.0 / (1.0 + rs));
      i := i - 1;
    }
    if maxI < n - 1 {
      var lastRsi := rsi[maxI];
      var k := maxI + 1;
      while k < n
        invariant maxI + 1 <= k <= n
        invariant forall t :: 0 <= t <= maxI ==> rsi[t] == RsiAt(avgGain[t], avgLoss[t])
        invariant forall t :: maxI < t < k ==> rsi[t] == lastRsi
      {
        rsi[k] := lastRsi;
        k := k + 1;
      }
    }
  }

  /** CalculateRSI: nil when there are fewer than period+1 prices;
      otherwise one value per price, the oldest repeating the last full
      window. */
  method CalculateRsi(price: seq<real>, period: int) returns (r: Option<seq<real>>)
    requires period >= 1
    ensures r == RsiOf(price, period)
    ensures r.None? <==> |price| < period + 1
    ensures r.Some? ==> |r.value| == |price|
    ensures r.Some? ==> forall i :: |price| - period < i < |price| ==> r.value[i] == r.value[|price| - period]
  {
    if |price| < period + 1 {
      return None;
    }
    var gains, losses := PriceChanges(price);
    var avgGain := Wma.CalculateWma(gains, period);
    var avgLoss := Wma.CalculateWma(losses, period);
    Wma.WmaNonNegative(gains, period);
    Wma.WmaNonNegative(losses, period);
    var rsi := new real[|price|];
    FillRsi(avgGain.value, avgLoss.value, |price| - period, rsi);
    r := Some(rsi[..]);
    assert r.value == RsiOf(price, period).value;
  }

  /** CalculateRSIMulti: one RSI series per requested period, in order. */
  method CalculateRsiMulti(price: seq<real>, periods: seq<int>) returns (result: seq<Option<seq<real>>>)
    requires forall k :: 0 <= k < |periods| ==> periods[k] >= 1
    ensures |result| == |periods|
    ensures forall k :: 0 <= k < |periods| ==> result[k] == RsiOf(price, periods[k])
  {
    result := [];
    var i := 0;
    while i < |periods|
      invariant 0 <= i <= |periods|
      invariant |result| == i
      invariant forall k :: 0 <= k < i ==> result[k] == RsiOf(price, periods[k])
    {
      var v := CalculateRsi(price, periods[i]);
      result := result + [v];
      i := i + 1;
    }
  }

  lemma RsiAtRange(avgGain: real, avgLoss: real)
    requires avgGain >= 0.0 && avgLoss >= 0.0
    ensures 0.0 <= RsiAt(avgGain, avgLoss) < 100.0
  {
    var rs := if avgLoss == 0.0 then 100.0 else avgGain / avgLoss;
    assert rs >= 0.0;
    assert 100.0 / (1.0 + rs) <= 100.0;
  }

  /** Average gains and losses are non-negative, so every RSI value lies
      in [0, 100). */
  lemma RsiRange(price: seq<real>, period: int)
    requires period >= 1 && |price| >= period + 1
    ensures forall i :: 0 <= i < |price| ==> 0.0 <= RsiOf(price, period).value[i] < 100.0
  {
    var gains := GainsOf(price);
    var losses := LossesOf(price);
    ChangesNonNegative(price);
    Wma.WmaNonNegative(gains, period);
    Wma.WmaNonNegative(losses, period);
    var avgGain := Wma.WmaOf(gains, period).value;
    var avgLoss := Wma.WmaOf(losses, period).value;
    forall i | 0 <= i < |price|
      ensures 0.0 <= RsiOf(price, period).value[i] < 100.0
    {
      var a := Wma.Anchor(i, Wma.LastFull(|price|, period));
      RsiAtRange(avgGain[a], avgLoss[a]);
    }
  }
}
