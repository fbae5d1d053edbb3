/** Numbers as the browser and the Go service see them: a JavaScript number
    may be NaN or `undefined` (an index past the end of an array, a missing
    property); `Math.round` rounds halves up; Go's `int(f)` truncates toward
    zero. Everything finite is a `real`. */
module JsMath {

  datatype JsNum = Undefined | NaN | Num(v: real) {
    /** JavaScript truthiness of a number-valued expression: 0, NaN and
        undefined are falsy. */
    predicate Truthy() { Num? && v != 0.0 }

    /** The global `isNaN`, which coerces: undefined becomes NaN. */
    predicate IsNaN() { !Num? }
  }

  /** `arr[i]` in JavaScript: undefined outside the array. */
  function At(s: seq<JsNum>, i: int): (r: JsNum)
    ensures 0 <= i < |s| ==> r == s[i]
    ensures !(0 <= i < |s|) ==> r == Undefined
  {
    if 0 <= i < |s| then s[i] else Undefined
  }

  /** `Math.round(x)`: the nearest integer, halves rounded toward +infinity. */
  function JsRound(x: real): (r: int)
    ensures x - 0.5 < r as real <= x + 0.5
    ensures r as real == x + 0.5 ==> (x + 0.5).Floor == r
  {
    (x + 0.5).Floor
  }

  /** Go's conversion `int(x)` of a float: truncation toward zero. */
  function GoTrunc(x: real): (r: int)
    ensures x >= 0.0 ==> r >= 0 && r as real <= x < r as real + 1.0
    ensures x < 0.0 ==> r <= 0 && r as real - 1.0 < x <= r as real
  {
    if x >= 0.0 then x.Floor else -((-x).Floor)
  }

  /** Go's `/` on integers: the quotient truncated toward zero (Dafny's `/`
      is Euclidean). */
  function GoDiv(a: int, b: int): (q: int)
    requires b != 0
    ensures a >= 0 && b > 0 ==> q == a / b
    ensures b > 0 && a < 0 ==> q <= 0
  {
    var q := (if a < 0 then -a else a) / (if b < 0 then -b else b);
    if (a < 0) == (b < 0) then q else -q
  }

  function MinR(a: real, b: real): real { if a <= b then a else b }
  function MaxR(a: real, b: real): real { if a >= b then a else b }

  function AbsR(x: real): (r: real)
    ensures r >= 0.0 && (r == x || r == -x)
  {
    if x < 0.0 then -x else x
  }

  function ClampR(x: real, lo: real, hi: real): (r: real)
    requires lo <= hi
    ensures lo <= r <= hi
    ensures lo <= x <= hi ==> r == x
  {
    MinR(MaxR(x, lo), hi)
  }

  function ClampI(x: int, lo: int, hi: int): (r: int)
    requires lo <= hi
    ensures lo <= r <= hi
    ensures lo <= x <= hi ==> r == x
  {
    if x < lo then lo else if x > hi then hi else x
  }

  /** Wrap-around of Go's 64-bit `int` arithmetic. */
  function Wrap64(x: int): (r: int)
    ensures -0x8000_0000_0000_0000 <= r < 0x8000_0000_0000_0000
    ensures -0x8000_0000_0000_0000 <= x < 0x8000_0000_0000_0000 ==> r == x
  {
    (x + 0x8000_0000_0000_0000) % 0x1_0000_0000_0000_0000 - 0x8000_0000_0000_0000
  }

  /** Go's `int(f)` on amd64: truncation toward zero when the value fits,
      the minimum `int` otherwise (the conversion instruction's answer for
      every out-of-range value, infinities and NaN included). */
  function GoFloatToInt(x: real): (r: int)
    ensures -0x8000_0000_0000_0000 <= r < 0x8000_0000_0000_0000
    ensures -0x8000_0000_0000_0000 as real <= x < 0x8000_0000_0000_0000 as real ==> r == GoTrunc(x)
    ensures !(-0x8000_0000_0000_0000 as real <= x < 0x8000_0000_0000_0000 as real) ==> r == -0x8000_0000_0000_0000
  {
    var t := GoTrunc(x);
    if -0x8000_0000_0000_0000 <= t < 0x8000_0000_0000_0000 then t else -0x8000_0000_0000_0000
  }
}
