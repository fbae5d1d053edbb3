/** Kline interval strings ("15m", "1h", "1d", …) and the period arithmetic
    built on them (pkg/types/interval.go). Go's `int` is 64 bits wide: the
    unit products wrap around, and a float that does not fit an `int`
    converts to the minimum value (the amd64 behaviour of `int(f)`). */
module Interval {
  import opened Wrappers
  import opened Decimal
  import opened JsMath

  /** The units the pattern `^(\d+)([smhdwMy])$` admits. */
  const Units: string := "smhdwMy"

  /** The text matches the pattern: one or more ASCII digits, then exactly
      one unit letter, and nothing else. */
  predicate Matches(s: string)
  {
    |s| >= 2 && AllDigits(s[..|s| - 1]) && s[|s| - 1] in Units
  }

  /** `strconv.Atoi` of a string of digits: an error past the 64-bit range. */
  function Atoi(digits: string): (r: Option<int>)
    requires AllDigits(digits)
    ensures r.Some? ==> 0 <= r.value <= MaxInt64
    ensures r.Some? <==> DigitsValue(digits) <= MaxInt64
  {
    if DigitsValue(digits) <= MaxInt64 then Some(DigitsValue(digits)) else None
  }

  /** The minutes of `value` units: seconds are divided by 60 (rounding
      down, so "30s" is 0 minutes), the other units multiply with 64-bit
      wrap-around (a month is 30 days, a year 365). */
  function UnitMinutes(unit: char, value: int): (minutes: int)
    requires unit in Units && 0 <= value <= MaxInt64
    ensures unit == 's' ==> minutes == value / 60
    ensures unit == 'm' ==> minutes == value
    ensures unit != 's' && value * Multiplier(unit) <= MaxInt64 ==> minutes == value * Multiplier(unit)
  {
    if unit == 's' then value / 60 else Wrap64(value * Multiplier(unit))
  }

  function Multiplier(unit: char): (k: nat)
    requires unit in Units && unit != 's'
    ensures k >= 1
  {
    match unit
    case 'm' => 1
    case 'h' => 60
    case 'd' => 24 * 60
    case 'w' => 7 * 24 * 60
    case 'M' => 30 * 24 * 60
    case 'y' => 365 * 24 * 60
  }

  /** IntervalToMinutes: a format error unless the text matches the pattern,
      a value error when the number does not fit an `int`. */
  function IntervalToMinutes(interval: string): (r: Result<int>)
    ensures r.Ok? <==> Matches(interval) && DigitsValue(interval[..|interval| - 1]) <= MaxInt64
  {
    if !Matches(interval) then Err("invalid interval format")
    else
      var digits := interval[..|interval| - 1];
      match Atoi(digits)
      case None => Err("invalid interval value")
      case Some(value) => Ok(UnitMinutes(interval[|interval| - 1], value))
  }

  /** Printing a number and appending a unit gives a text that parses back
      to that number of units. */
  lemma IntervalRoundTrip(value: nat, unit: char)
    requires value <= MaxInt64 && unit in Units
    ensures IntervalToMinutes(NatToString(value) + [unit]) == Ok(UnitMinutes(unit, value))
  {
    var s := NatToString(value) + [unit];
    assert s[..|s| - 1] == NatToString(value);
    NatToStringRoundTrip(value);
  }

  /** A text without a unit letter at its end, or with a non-digit before
      it, is rejected. */
  lemma IntervalRejects(interval: string, k: int)
    requires 0 <= k < |interval| - 1 && !IsDigit(interval[k])
    ensures IntervalToMinutes(interval).Err?
  {
    assert interval[..|interval| - 1][k] == interval[k];
  }

  /** The examples of the doc comment, and the seconds case. */
  lemma IntervalExamples()
    ensures IntervalToMinutes("1h") == Ok(60)
    ensures IntervalToMinutes("15m") == Ok(15)
    ensures IntervalToMinutes("1d") == Ok(1440)
    ensures IntervalToMinutes("30s") == Ok(0)
  {
    assert NatToString(1) + ['h'] == "1h";
    assert NatToString(15) + ['m'] == "15m";
    assert NatToString(1) + ['d'] == "1d";
    assert NatToString(30) + ['s'] == "30s";
    IntervalRoundTrip(1, 'h');
    IntervalRoundTrip(15, 'm');
    IntervalRoundTrip(1, 'd');
    IntervalRoundTrip(30, 's');
  }

  /** The scaling step for an interval of `minutes`. A zero-minute
      interval makes the scale infinite, which converts to the minimum
      `int` and is then raised to 1. */
  function ScaleByMinutes(period: int, minutes: int): (r: int)
    ensures 1 <= r <= MaxInt64
  {
    var scaled := if minutes == 0 then MinInt64
                  else GoFloatToInt(period as real * (60.0 / minutes as real));
    if scaled < 1 then 1 else scaled
  }

  /** ScalePeriod: an hour-based period rescaled to the kline interval,
      `int(period * (60 / minutes))`, raised to at least 1; parse errors
      pass through. */
  function ScalePeriod(period: int, interval: string): (r: Result<int>)
    ensures r.Err? <==> IntervalToMinutes(interval).Err?
    ensures r.Ok? ==> 1 <= r.value <= MaxInt64
    ensures r.Ok? ==> r.value == ScaleByMinutes(period, IntervalToMinutes(interval).value)
  {
    match IntervalToMinutes(interval)
    case Err(e) => Err(e)
    case Ok(minutes) => Ok(ScaleByMinutes(period, minutes))
  }

  /** ⌊a / b⌋ computed in the reals and truncated is the integer quotient. */
  lemma TruncQuotient(a: int, b: int)
    requires a >= 0 && b > 0
    ensures GoTrunc(a as real / b as real) == a / b
  {
    var q := a / b;
    var r := a % b;
    var x := a as real / b as real;
    var f := r as real / b as real;
    assert 0.0 <= f < 1.0;
    assert (q as real + f) * b as real == a as real;
    assert x == q as real + f;
  }

  lemma DivAtMost(a: int, b: int)
    requires a >= 0 && b >= 1
    ensures 0 <= a / b <= a
  {
    var q := a / b;
    assert a == q * b + a % b && 0 <= a % b;
    assert q >= 0;
    NotBelowFactor(q, b);
  }

  lemma NotBelowFactor(q: int, b: int)
    requires q >= 0 && b >= 1
    ensures q <= q * b
  {
    assert q * b == q * (b - 1) + q;
    assert q * (b - 1) >= 0;
  }

  lemma {:induction false} ScaleIsQuotient(period: int, minutes: int)
    requires minutes > 0
    ensures period as real * (60.0 / minutes as real) == (period * 60) as real / minutes as real
  {
    var m := minutes as real;
    var scale := 60.0 / m;
    assert scale * m == 60.0;
    assert (period as real * scale) * m == (period * 60) as real;
  }

  /** With a positive interval, a scaled period that fits is the truncated
      quotient `period * 60 / minutes`, or 1 when that is 0. */
  lemma ScaleByMinutesValue(period: int, minutes: int)
    requires minutes > 0 && 0 <= period <= MaxInt64 / 60
    ensures ScaleByMinutes(period, minutes) ==
              var q := (period * 60) / minutes; if q < 1 then 1 else q
  {
    ScaleIsQuotient(period, minutes);
    TruncQuotient(period * 60, minutes);
    var q := (period * 60) / minutes;
    DivAtMost(period * 60, minutes);
    assert GoTrunc(period as real * (60.0 / minutes as real)) == q;
  }

  lemma ScalePeriodExample()
    ensures ScalePeriod(48, "15m") == Ok(192)
    ensures ScalePeriod(48, "1h") == Ok(48)
    ensures ScalePeriod(24, "30s") == Ok(1)
  {
    IntervalExamples();
    ScaleByMinutesValue(48, 15);
    ScaleByMinutesValue(48, 60);
  }

  /** The kline count for `days` at `minutes` per kline: the 64-bit
      quotient, raised to at least 1, plus ten percent, truncated. */
  function KlinesByMinutes(days: int, minutes: int): (r: int)
    requires minutes != 0
    ensures MinInt64 <= r <= MaxInt64
  {
    var totalMinutes := Wrap64(days * 24 * 60);
    var klines := Wrap64(GoDiv(totalMinutes, minutes));
    var atLeastOne := if klines < 1 then 1 else klines;
    GoFloatToInt(atLeastOne as real * 1.1)
  }

  /** CalculateKlinesForDays: how many klines `days` days need at the given
      interval; parse errors pass through. The source divides by zero on a
      zero-minute interval such as "30s", so that is excluded. */
  function CalculateKlinesForDays(days: int, interval: string): (r: Result<int>)
    requires IntervalToMinutes(interval).Ok? ==> IntervalToMinutes(interval).value != 0
    ensures r.Err? <==> IntervalToMinutes(interval).Err?
    ensures r.Ok? ==> r.value == KlinesByMinutes(days, IntervalToMinutes(interval).value)
  {
    match IntervalToMinutes(interval)
    case Err(e) => Err(e)
    case Ok(minutes) => Ok(KlinesByMinutes(days, minutes))
  }

  /** For realistic inputs the count is exactly ⌊1.1·max(1, ⌊days·1440/minutes⌋)⌋,
      never fewer klines than the days span. */
  lemma KlinesByMinutesValue(days: int, minutes: int)
    requires minutes > 0 && 0 <= days <= 1_000_000
    ensures var base := days * 1440 / minutes;
            var k := if base < 1 then 1 else base;
            KlinesByMinutes(days, minutes) == (k * 11) / 10 >= k
  {
    var base := days * 1440 / minutes;
    DivAtMost(days * 1440, minutes);
    assert Wrap64(days * 24 * 60) == days * 1440;
    assert GoDiv(days * 1440, minutes) == base;
    var k := if base < 1 then 1 else base;
    assert k as real * 1.1 == (k * 11) as real / 10 as real;
    TruncQuotient(k * 11, 10);
    assert GoTrunc(k as real * 1.1) == (k * 11) / 10 <= MaxInt64;
  }

  lemma KlinesForDaysExample()
    ensures IntervalToMinutes("1h") == Ok(60) && CalculateKlinesForDays(7, "1h") == Ok(184)
    ensures IntervalToMinutes("1d") == Ok(1440) && CalculateKlinesForDays(1, "1d") == Ok(1)
  {
    IntervalExamples();
    assert KlinesByMinutes(7, 60) == 184 by {
      KlinesByMinutesValue(7, 60);
      assert 7 * 1440 / 60 == 168;
    }
    assert KlinesByMinutes(1, 1440) == 1 by {
      KlinesByMinutesValue(1, 1440);
      assert 1 * 1440 / 1440 == 1;
    }
  }
}
