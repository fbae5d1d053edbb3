/** Decimal text for integers, as Go's `%d` / `strconv` write it and as the
    string parsers of the Go and JavaScript code read it back. */
module Decimal {
  import opened Wrappers

  const MaxInt64: int := 0x7fff_ffff_ffff_ffff
  const MinInt64: int := -0x8000_0000_0000_0000

  /** The values of Go's 64-bit `int`. */
  predicate InInt64(n: int) { MinInt64 <= n <= MaxInt64 }

  predicate IsDigit(c: char) { '0' <= c <= '9' }

  predicate AllDigits(s: string) { forall i :: 0 <= i < |s| ==> IsDigit(s[i]) }

  function DigitValue(c: char): (d: nat)
    requires IsDigit(c)
    ensures d < 10
  {
    (c as int - '0' as int) as nat
  }

  function DigitChar(d: nat): (c: char)
    requires d < 10
    ensures IsDigit(c) && DigitValue(c) == d
  {
    ('0' as int + d) as char
  }

  /** The value of a string of decimal digits, most significant digit first. */
  function DigitsValue(s: string): nat
    requires AllDigits(s)
  {
    if s == [] then 0 else DigitsValue(s[..|s| - 1]) * 10 + DigitValue(s[|s| - 1])
  }

  /** Decimal text of a natural number without leading zeros (strconv.Itoa). */
  function NatToString(n: nat): (s: string)
    ensures |s| > 0 && AllDigits(s)
    ensures |s| > 1 ==> s[0] != '0'
  {
    if n < 10 then [DigitChar(n)] else NatToString(n / 10) + [DigitChar(n % 10)]
  }

  /** Decimal text of an integer with a leading '-' when negative (fmt's %d). */
  function IntToString(i: int): (s: string)
    ensures |s| > 0
    ensures (i < 0) == (s[0] == '-')
  {
    if i < 0 then "-" + NatToString(-i) else NatToString(i)
  }

  lemma {:induction false} NatToStringRoundTrip(n: nat)
    ensures DigitsValue(NatToString(n)) == n
  {
    var s := NatToString(n);
    if n >= 10 {
      NatToStringRoundTrip(n / 10);
      assert s[..|s| - 1] == NatToString(n / 10);
    }
  }

  /** Different integers never share a decimal text, so map keys built
      from distinct periods are distinct. */
  lemma IntToStringInjective(a: int, b: int)
    requires IntToString(a) == IntToString(b)
    ensures a == b
  {
    if a < 0 && b < 0 {
      assert NatToString(-a) == IntToString(a)[1..];
      assert NatToString(-b) == IntToString(b)[1..];
      NatToStringRoundTrip(-a);
      NatToStringRoundTrip(-b);
    } else if a >= 0 && b >= 0 {
      NatToStringRoundTrip(a);
      NatToStringRoundTrip(b);
    }
  }

  /** Length of the longest prefix of `s` made of decimal digits. */
  function DigitPrefixLength(s: string): (k: nat)
    ensures k <= |s| && AllDigits(s[..k])
    ensures k < |s| ==> !IsDigit(s[k])
  {
    if s == [] || !IsDigit(s[0]) then 0
    else
      var k := 1 + DigitPrefixLength(s[1..]);
      assert s[..k] == [s[0]] + s[1..][..k - 1];
      k
  }

  lemma DigitPrefixOfDigits(s: string, t: string)
    requires AllDigits(s)
    requires t == [] || !IsDigit(t[0])
    ensures DigitPrefixLength(s + t) == |s|
  {
    if s != [] {
      assert (s + t)[1..] == s[1..] + t;
      DigitPrefixOfDigits(s[1..], t);
    } else {
      assert s + t == t;
    }
  }

  /** The characters that JavaScript's `parseInt` trims before reading:
      white space and line terminators of ECMAScript (sections 12.2 and
      12.3 of ECMAScript 2024; `parseInt` is section 19.2.5). */
  predicate IsJsWhiteSpace(c: char)
  {
    c == '\t' || c == '\U{000B}' || c == '\U{000C}' || c == '\U{FEFF}' || IsSpaceSeparator(c)
    || c == '\n' || c == '\r' || c == '\U{2028}' || c == '\U{2029}'
  }

  /** The Unicode space separators (category Zs). */
  predicate IsSpaceSeparator(c: char)
  {
    c == ' ' || c == '\U{00A0}' || c == '\U{1680}' || ('\U{2000}' <= c <= '\U{200A}')
    || c == '\U{202F}' || c == '\U{205F}' || c == '\U{3000}'
  }

  function SkipJsWhiteSpace(s: string): (t: string)
    ensures |t| <= |s| && (t == [] || !IsJsWhiteSpace(t[0]))
  {
    if s != [] && IsJsWhiteSpace(s[0]) then SkipJsWhiteSpace(s[1..]) else s
  }

  /** The blanks that Go's `fmt` scanner skips: its table of space runes
      (U+0009 to U+000D, the space, U+0085, U+00A0, U+1680, U+2000 to
      U+200A, U+2028, U+2029, U+202F, U+205F, U+3000). */
  predicate IsGoSpace(c: char)
  {
    ('\t' <= c <= '\r') || c == '\U{0085}' || IsSpaceSeparator(c) || c == '\U{2028}' || c == '\U{2029}'
  }

  /** The blank skipping of `fmt.Sscanf`, where a newline is not a space:
      None ("unexpected newline") when a newline comes before the first
      other character. A carriage return is skipped either way: alone it
      is a space, and before a newline the newline then fails. */
  function SkipGoBlanks(s: string): (r: Option<string>)
    ensures r.Some? ==> |r.value| <= |s| && (r.value == [] || !IsGoSpace(r.value[0]))
  {
    if s == [] then Some(s)
    else if s[0] == '\n' then None
    else if IsGoSpace(s[0]) then SkipGoBlanks(s[1..])
    else Some(s)
  }

  /** Some blank run of `s` reaches a newline. */
  predicate NewlineAmongBlanks(s: string)
  {
    exists k :: 0 <= k < |s| && s[k] == '\n' && forall j :: 0 <= j < k ==> IsGoSpace(s[j])
  }

  /** The scan fails in its blank skipping exactly when a newline comes
      before the first character that is not a blank. */
  lemma {:induction false} SkipGoBlanksFails(s: string)
    ensures SkipGoBlanks(s).None? <==> NewlineAmongBlanks(s)
  {
    if s == [] {
    } else if s[0] == '\n' {
      assert s[0] == '\n';
    } else if IsGoSpace(s[0]) {
      SkipGoBlanksFails(s[1..]);
      if NewlineAmongBlanks(s[1..]) {
        var k :| 0 <= k < |s[1..]| && s[1..][k] == '\n' && forall j :: 0 <= j < k ==> IsGoSpace(s[1..][j]);
        assert s[k + 1] == '\n';
        forall j | 0 <= j < k + 1 ensures IsGoSpace(s[j]) {
          if j > 0 { assert s[j] == s[1..][j - 1]; }
        }
      }
      if NewlineAmongBlanks(s) {
        var k :| 0 <= k < |s| && s[k] == '\n' && forall j :: 0 <= j < k ==> IsGoSpace(s[j]);
        assert k > 0;
        assert s[1..][k - 1] == '\n';
        forall j | 0 <= j < k - 1 ensures IsGoSpace(s[1..][j]) {
          assert s[1..][j] == s[j + 1];
        }
      }
    }
  }

  /** An optional sign followed by at least one digit, the rest of the text
      ignored: the integer prefix that both JavaScript's `parseInt(s)` and
      Go's `fmt.Sscanf(s, "%d", …)` read once the leading blanks are gone. */
  function SignedPrefix(t: string): Option<int>
  {
    var neg := t != [] && t[0] == '-';
    var body := if t != [] && (t[0] == '-' || t[0] == '+') then t[1..] else t;
    var k := DigitPrefixLength(body);
    if k == 0 then None
    else
      var v: int := DigitsValue(body[..k]);
      var r: int := if neg then -v else v;
      Some(r)
  }

  /** JavaScript `parseInt(s)` in base ten; None stands for NaN. */
  function JsParseInt(s: string): Option<int>
  {
    SignedPrefix(SkipJsWhiteSpace(s))
  }

  /** Go `fmt.Sscanf(s, "%d", &n)` into an `int`: None when it reports an
      error (a newline among the leading blanks, no digits, or a value
      outside the 64-bit range). */
  function GoScanInt(s: string): (r: Option<int>)
    ensures r.Some? ==> MinInt64 <= r.value <= MaxInt64
    ensures r.Some? ==> SkipGoBlanks(s).Some? && SignedPrefix(SkipGoBlanks(s).value) == r
    ensures SkipGoBlanks(s).None? ==> r.None?
  {
    match SkipGoBlanks(s)
    case None => None
    case Some(t) =>
      match SignedPrefix(t)
      case Some(v) => if MinInt64 <= v <= MaxInt64 then Some(v) else None
      case None => None
  }

  /** Keys that Go writes with %d are read back by parseInt as the same number. */
  /** The text `%d` writes for an integer reads back, sign and digits, as
      that integer. */
  lemma SignedPrefixOfIntToString(i: int)
    ensures SignedPrefix(IntToString(i)) == Some(i)
    ensures IntToString(i)[0] == '-' || IsDigit(IntToString(i)[0])
  {
    var n: nat := if i < 0 then -i else i;
    var digits := NatToString(n);
    var s := IntToString(i);
    NatToStringRoundTrip(n);
    DigitPrefixOfDigits(digits, []);
    assert digits + [] == digits;
    assert digits[..|digits|] == digits;
    var body := if i < 0 then s[1..] else s;
    assert body == digits;
    assert DigitPrefixLength(body) == |digits|;
    assert AllDigits(digits);
  }

  /** Keys that Go writes with %d are read back by parseInt as the same number. */
  lemma JsParseIntOfIntToString(i: int)
    ensures JsParseInt(IntToString(i)) == Some(i)
  {
    SignedPrefixOfIntToString(i);
    var s := IntToString(i);
    assert SkipJsWhiteSpace(s) == s by {
      assert !IsJsWhiteSpace(s[0]);
    }
  }

  /** `fmt.Sscanf(s, "%d")` reads the text `%d` writes for a 64-bit integer
      back as that integer. */
  lemma GoScanIntOfIntToString(i: int)
    requires MinInt64 <= i <= MaxInt64
    ensures GoScanInt(IntToString(i)) == Some(i)
  {
    SignedPrefixOfIntToString(i);
    var s := IntToString(i);
    assert SkipGoBlanks(s) == Some(s) by {
      assert s[0] != '\n' && !IsGoSpace(s[0]);
    }
  }

  /** `s` never contains `c`. */
  predicate Avoids(s: string, c: char) { forall k :: 0 <= k < |s| ==> s[k] != c }

  /** The decimal text of an integer holds only digits and '-'. */
  lemma IntToStringAvoids(i: int, c: char)
    requires !IsDigit(c) && c != '-'
    ensures Avoids(IntToString(i), c)
  {
    var n: nat := if i < 0 then -i else i;
    assert AllDigits(NatToString(n));
    if i < 0 {
      assert IntToString(i) == "-" + NatToString(n);
    }
  }

  /** Text joined with a separator that its first part avoids splits back
      uniquely: the first separator ends the first part. */
  lemma SeparatedUnique(a1: string, b1: string, a2: string, b2: string, sep: char)
    requires Avoids(a1, sep) && Avoids(a2, sep)
    requires a1 + [sep] + b1 == a2 + [sep] + b2
    ensures a1 == a2 && b1 == b2
  {
    var k := a1 + [sep] + b1;
    assert k[|a1|] == sep;
    assert (a2 + [sep] + b2)[|a2|] == sep;
    if |a1| < |a2| {
      assert false;
    } else if |a2| < |a1| {
      assert false;
    }
    assert a1 == k[..|a1|] == a2;
    assert b1 == k[|a1| + 1..] == b2;
  }
}
