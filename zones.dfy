/** The price zone: where a price sits between the Bollinger middle band
    and the outer bands, as a number from −10 to +10 (0 on the middle).
    Two formulas exist. The browser's `calculateZoneForPrice`
    (web/static/app-refactored.js) measures both sides against the upper
    half-band and rounds; the Go service's `calculateZone`
    (internal/service/realtime_service.go) measures the lower side against
    the lower half-band and truncates. */
module Zones {
  import opened JsMath

  /** The distance from the middle in tenths of the upper half-band. */
  function Tenths(price: real, middle: real, upper: real): real
    requires upper != middle
  {
    AbsR(price - middle) / ((upper - middle) / 10.0)
  }

  /** The browser formula computes a zone (rather than returning 0 early):
      all three bands are truthy, nothing is NaN, the price is off the
      middle and the upper half-band is not empty. */
  predicate JsActive(price: JsNum, middle: JsNum, upper: JsNum, lower: JsNum)
  {
    middle.Truthy() && upper.Truthy() && lower.Truthy() && !price.IsNaN()
    && AbsR(price.v - middle.v) >= 0.0001 && upper.v != middle.v
  }

  /** `calculateZoneForPrice(price, middle, upper, lower)`: 0 exactly in
      the early-return cases, otherwise in 1..10 with the sign of
      price − middle. */
  function JsZone(price: JsNum, middle: JsNum, upper: JsNum, lower: JsNum): (r: int)
    ensures -10 <= r <= 10
    ensures r == 0 <==> !JsActive(price, middle, upper, lower)
    ensures JsActive(price, middle, upper, lower) && price.v > middle.v ==> 1 <= r
    ensures JsActive(price, middle, upper, lower) && price.v < middle.v ==> r <= -1
  {
    if !middle.Truthy() || !upper.Truthy() || !lower.Truthy()
       || price.IsNaN() || middle.IsNaN() || upper.IsNaN() || lower.IsNaN() then 0
    else if AbsR(price.v - middle.v) < 0.0001 then 0
    else
      var halfBandWidth := upper.v - middle.v;
      if halfBandWidth == 0.0 then 0
      else
        var distance := AbsR(price.v - middle.v);
        var zone := MinR(MaxR(distance / (halfBandWidth / 10.0), 1.0), 10.0);
        var signed := if price.v < middle.v then zone * -1.0 else zone;
        JsRound(signed)
  }

  /** Rounding is not symmetric: halves go up, so a ratio of exactly 2.5
      tenths is zone 3 above the middle but −2 below it. */
  lemma JsZoneHalfAsymmetry()
    ensures JsZone(Num(102.5), Num(100.0), Num(110.0), Num(90.0)) == 3
    ensures JsZone(Num(97.5), Num(100.0), Num(110.0), Num(90.0)) == -2
  {
    assert Tenths(102.5, 100.0, 110.0) == 2.5;
    assert Tenths(97.5, 100.0, 110.0) == 2.5;
  }

  /** Away from exact halves the browser zone is antisymmetric: the same
      distance below the middle gives the opposite zone. */
  lemma JsZoneAntisymmetric(middle: real, upper: real, lower: real, d: real)
    requires middle != 0.0 && upper != 0.0 && lower != 0.0 && upper != middle
    requires d >= 0.0001
    requires var z := ClampR(Tenths(middle + d, middle, upper), 1.0, 10.0); (z + 0.5).Floor as real != z + 0.5
    ensures JsZone(Num(middle - d), Num(middle), Num(upper), Num(lower)) ==
            -JsZone(Num(middle + d), Num(middle), Num(upper), Num(lower))
  {
    var z := ClampR(Tenths(middle + d, middle, upper), 1.0, 10.0);
    assert Tenths(middle - d, middle, upper) == Tenths(middle + d, middle, upper);
    assert JsZone(Num(middle + d), Num(middle), Num(upper), Num(lower)) == JsRound(z);
    assert JsZone(Num(middle - d), Num(middle), Num(upper), Num(lower)) == JsRound(-z);
    var f := (z + 0.5).Floor;
    assert f as real < z + 0.5;
    assert (-z + 0.5).Floor == -f;
  }

  /** The two examples of the doc comment: with middle 100 and upper 110 a
      price of 105 is zone +5 and a price of 80 is zone −10. */
  lemma JsZoneExamples()
    ensures JsZone(Num(105.0), Num(100.0), Num(110.0), Num(90.0)) == 5
    ensures JsZone(Num(80.0), Num(100.0), Num(110.0), Num(90.0)) == -10
  {
    assert Tenths(105.0, 100.0, 110.0) == 5.0;
    assert Tenths(80.0, 100.0, 110.0) == 20.0;
  }

  /** `calculateZone(price, middle, upper, lower)`; `int(ratio * 10)`
      truncates toward zero (and yields the minimum `int` when the product
      does not fit). The zone is 0 exactly when the middle is 0 or the
      price is on it, otherwise in 1..10 above the middle and −10..−1
      below. */
  function GoZone(price: real, middle: real, upper: real, lower: real): (r: int)
    ensures -10 <= r <= 10
    ensures r == 0 <==> middle == 0.0 || AbsR(price - middle) < 0.0001
    ensures middle != 0.0 && AbsR(price - middle) >= 0.0001 && price > middle ==> 1 <= r
    ensures middle != 0.0 && AbsR(price - middle) >= 0.0001 && price < middle ==> r <= -1
  {
    if middle == 0.0 then 0
    else if AbsR(price - middle) < 0.0001 then 0
    else if price > middle then
      var upperRange := upper - middle;
      if upperRange <= 0.0 then 10
      else
        var ratio := (price - middle) / upperRange;
        var zone := GoFloatToInt(ratio * 10.0);
        var capped := if zone >= 10 then 10 else zone;
        if capped < 1 then 1 else capped
    else
      var lowerRange := middle - lower;
      if lowerRange <= 0.0 then -10
      else
        var ratio := (middle - price) / lowerRange;
        var zone := Wrap64(-GoFloatToInt(ratio * 10.0));
        var capped := if zone <= -10 then -10 else zone;
        if capped > -1 then -1 else capped
  }

  lemma FractionAtMostOne(a: real, b: real)
    requires 0.0 <= a <= b && b > 0.0
    ensures 0.0 <= a / b <= 1.0
  {
    assert (a / b) * b == a;
  }

  lemma ScaleQuotient(a: real, b: real)
    requires b != 0.0
    ensures a / b * 10.0 == 10.0 * a / b
  {
    var q := a / b;
    assert q * b == a;
    assert (q * 10.0) * b == 10.0 * a;
  }

  /** Within the bands the service zone counts whole tenths of the upper
      half-band above the middle and of the lower half-band below it. */
  lemma GoZoneTenths(price: real, middle: real, upper: real, lower: real)
    requires middle != 0.0 && AbsR(price - middle) >= 0.0001
    requires lower < middle < upper && lower <= price <= upper
    ensures price > middle ==>
              GoZone(price, middle, upper, lower) == ClampI(GoTrunc(10.0 * (price - middle) / (upper - middle)), 1, 10)
    ensures price < middle ==>
              GoZone(price, middle, upper, lower) == -ClampI(GoTrunc(10.0 * (middle - price) / (middle - lower)), 1, 10)
  {
    if price > middle {
      ScaleQuotient(price - middle, upper - middle);
      FractionAtMostOne(price - middle, upper - middle);
    } else {
      ScaleQuotient(middle - price, middle - lower);
      FractionAtMostOne(middle - price, middle - lower);
    }
  }

  /** A price so far above a thin upper half-band that ten times the ratio
      overflows an `int` converts to the minimum `int`, which the lower cap
      turns into zone 1, not 10. */
  lemma GoZoneOverflow()
    ensures GoZone(2.0, 1.0, 1.0 + 1.0 / 10_000_000_000_000_000_000.0, 0.0) == 1
  {
    var upperRange := 1.0 / 10_000_000_000_000_000_000.0;
    assert (2.0 - 1.0) / upperRange == 10_000_000_000_000_000_000.0;
  }

  /** Where the formulas part: truncation puts 104.6 in zone 4 where the
      browser rounds to 5; an empty upper half-band is zone 10 for the
      service and 0 for the browser; and below the middle the service
      measures against the lower band, the browser against the upper. */
  lemma ZonesDisagree()
    ensures GoZone(104.6, 100.0, 110.0, 90.0) == 4
    ensures JsZone(Num(104.6), Num(100.0), Num(110.0), Num(90.0)) == 5
    ensures GoZone(105.0, 100.0, 100.0, 90.0) == 10
    ensures JsZone(Num(105.0), Num(100.0), Num(100.0), Num(90.0)) == 0
    ensures GoZone(95.0, 100.0, 110.0, 80.0) == -2
    ensures JsZone(Num(95.0), Num(100.0), Num(110.0), Num(80.0)) == -5
  {
    assert (104.6 - 100.0) / (110.0 - 100.0) * 10.0 == 4.6;
    assert Tenths(104.6, 100.0, 110.0) == 4.6;
    assert (100.0 - 95.0) / (100.0 - 80.0) * 10.0 == 2.5;
    assert Tenths(95.0, 100.0, 110.0) == 5.0;
  }

  /** Truncating then clamping and clamping then rounding a tenths count
      in [0, 10] differ by at most one, on either side of the middle. */
  lemma TruncNearRound(t: real)
    requires 0.0 <= t <= 10.0
    ensures -1 <= ClampI(GoTrunc(t), 1, 10) - JsRound(ClampR(t, 1.0, 10.0)) <= 0
    ensures 0 <= -ClampI(GoTrunc(t), 1, 10) - JsRound(-ClampR(t, 1.0, 10.0)) <= 1
  {
    var z := ClampR(t, 1.0, 10.0);
    var f := t.Floor;
    assert GoTrunc(t) == f;
    if t < 1.0 {
      assert z == 1.0;
    } else {
      assert z == t;
    }
  }

  /** Past the early returns the browser zone is the clamped tenths count,
      rounded, negated first below the middle. */
  lemma JsZoneRounds(price: real, middle: real, upper: real, lower: real)
    requires JsActive(Num(price), Num(middle), Num(upper), Num(lower))
    ensures price > middle ==>
              JsZone(Num(price), Num(middle), Num(upper), Num(lower)) == JsRound(ClampR(Tenths(price, middle, upper), 1.0, 10.0))
    ensures price < middle ==>
              JsZone(Num(price), Num(middle), Num(upper), Num(lower)) == JsRound(-ClampR(Tenths(price, middle, upper), 1.0, 10.0))
  {
  }

  /** With symmetric bands and the price inside, the browser's tenths count
      is in [0, 10] and is the one the service truncates. */
  lemma SymmetricTenths(price: real, middle: real, halfWidth: real)
    requires halfWidth > 0.0 && middle - halfWidth <= price <= middle + halfWidth
    ensures 0.0 <= Tenths(price, middle, middle + halfWidth) <= 10.0
    ensures price > middle ==>
              10.0 * (price - middle) / halfWidth == Tenths(price, middle, middle + halfWidth)
    ensures price < middle ==>
              10.0 * (middle - price) / halfWidth == Tenths(price, middle, middle + halfWidth)
  {
    var d := AbsR(price - middle);
    var t := Tenths(price, middle, middle + halfWidth);
    ScaleQuotient(d, halfWidth);
    assert t == d / halfWidth * 10.0;
    FractionAtMostOne(d, halfWidth);
  }

  /** On bands as the service builds them (symmetric about the middle, the
      price inside), the two formulas differ by at most one zone. */
  lemma ZonesWithinOne(price: real, middle: real, halfWidth: real)
    requires middle != 0.0 && middle + halfWidth != 0.0 && middle - halfWidth != 0.0
    requires halfWidth > 0.0 && middle - halfWidth <= price <= middle + halfWidth
    ensures var g := GoZone(price, middle, middle + halfWidth, middle - halfWidth);
            var j := JsZone(Num(price), Num(middle), Num(middle + halfWidth), Num(middle - halfWidth));
            -1 <= g - j <= 1
  {
    var upper := middle + halfWidth;
    var lower := middle - halfWidth;
    if AbsR(price - middle) >= 0.0001 {
      var t := Tenths(price, middle, upper);
      SymmetricTenths(price, middle, halfWidth);
      GoZoneTenths(price, middle, upper, lower);
      JsZoneRounds(price, middle, upper, lower);
      TruncNearRound(t);
      assert upper - middle == halfWidth && middle - lower == halfWidth;
    }
  }
}
