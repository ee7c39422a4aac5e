/** Decimal digit strings: the `^\d+$` pattern a response body must match,
    the number `parseInt(body, 10)` reads from such a body, and the decimal
    rendering of an integer that JavaScript string concatenation produces. */
module Decimal {

  /** JavaScript's `\d`: an ASCII decimal digit only. */
  predicate IsDigit(c: char) {
    '0' <= c <= '9'
  }

  function DigitValue(c: char): (d: nat)
    requires IsDigit(c)
    ensures d < 10
  {
    c as int - '0' as int
  }

  function DigitChar(d: nat): (c: char)
    requires d < 10
    ensures IsDigit(c) && DigitValue(c) == d
  {
    (d + '0' as int) as char
  }

  function Pow10(k: nat): (p: nat)
    ensures p >= 1
  {
    if k == 0 then 1 else 10 * Pow10(k - 1)
  }

  /** Every character of `s` is a digit. */
  ghost predicate AllDigits(s: string) {
    forall i :: 0 <= i < |s| ==> IsDigit(s[i])
  }

  /** A digit string in shortest form: what a non-negative integer prints as. */
  ghost predicate Canonical(s: string) {
    |s| > 0 && AllDigits(s) && (|s| > 1 ==> s[0] != '0')
  }

  /** The left-to-right scan that decides whether every character is a digit. */
  function ScanDigits(s: string): (b: bool)
    ensures b <==> AllDigits(s)
  {
    s == [] || (IsDigit(s[0]) && ScanDigits(s[1..]))
  }

  /** `/^\d+$/.exec(s) !== null`: the anchors make it a whole-string match, so
      `s` is one or more digits and nothing else, with no trailing newline
      allowed (`$` without the `m` flag matches only at the end of input). */
  function MatchesDigitPattern(s: string): (b: bool)
    ensures b <==> |s| > 0 && AllDigits(s)
  {
    |s| > 0 && ScanDigits(s)
  }

  /** The number a digit string denotes in base 10. */
  function Value(s: string): (n: nat)
    requires AllDigits(s)
    ensures n < Pow10(|s|)
    decreases |s|
  {
    if s == [] then 0 else 10 * Value(s[..|s| - 1]) + DigitValue(s[|s| - 1])
  }

  /** `parseInt(s, 10)` on a digit string: digits are accumulated from the
      left, each step multiplying the running value by ten. */
  method ParseInt(s: string) returns (n: nat)
    requires AllDigits(s)
    ensures n == Value(s)
  {
    n := 0;
    var i := 0;
    while i < |s|
      invariant 0 <= i <= |s|
      invariant AllDigits(s[..i])
      invariant n == Value(s[..i])
    {
      assert s[..i + 1][..i] == s[..i];
      n := 10 * n + DigitValue(s[i]);
      i := i + 1;
    }
    assert s[..|s|] == s;
  }

  /** The decimal rendering of a non-negative integer, as `'' + n` gives it. */
  function ToDecimal(n: nat): (s: string)
    ensures Canonical(s)
    decreases n
  {
    if n < 10 then [DigitChar(n)] else ToDecimal(n / 10) + [DigitChar(n % 10)]
  }

  /** The decimal rendering of any integer, with a leading '-' when negative. */
  function IntToString(i: int): (s: string)
    ensures |s| > 0
    ensures i < 0 <==> s[0] == '-'
  {
    if i < 0 then "-" + ToDecimal(-i) else ToDecimal(i)
  }

  lemma ValueSnoc(s: string, c: char)
    requires AllDigits(s) && IsDigit(c)
    ensures AllDigits(s + [c])
    ensures Value(s + [c]) == 10 * Value(s) + DigitValue(c)
  {
    assert (s + [c])[..|s|] == s;
  }

  /** Reading back a rendered number gives the number. */
  lemma {:induction false} ValueOfToDecimal(n: nat)
    ensures Value(ToDecimal(n)) == n
    decreases n
  {
    if n >= 10 {
      ValueOfToDecimal(n / 10);
      ValueSnoc(ToDecimal(n / 10), DigitChar(n % 10));
    }
  }

  lemma {:induction false} ValuePositive(s: string)
    requires |s| > 0 && AllDigits(s) && s[0] != '0'
    ensures Value(s) > 0
    decreases |s|
  {
    if |s| > 1 {
      var p := s[..|s| - 1];
      assert p[0] == s[0];
      ValuePositive(p);
    }
  }

  /** Rendering the value of a shortest-form digit string gives the string
      back, so on canonical strings `Value` and `ToDecimal` are inverses. */
  lemma {:induction false} ToDecimalOfValue(s: string)
    requires Canonical(s)
    ensures ToDecimal(Value(s)) == s
    decreases |s|
  {
    var c := s[|s| - 1];
    var p := s[..|s| - 1];
    if |s| == 1 {
      assert s == [c];
      assert DigitChar(DigitValue(c)) == c;
    } else {
      assert p[0] == s[0];
      ValuePositive(p);
      ToDecimalOfValue(p);
      assert DigitChar(DigitValue(c)) == c;
      assert s == p + [c];
    }
  }

  /** Distinct integers print differently. */
  lemma IntToStringInjective(i: int, j: int)
    ensures IntToString(i) == IntToString(j) ==> i == j
  {
    var si, sj := IntToString(i), IntToString(j);
    if (i < 0) != (j < 0) {
      // exactly one of the two starts with '-'
      assert si[0] != sj[0];
    } else if i < 0 {
      assert si[1..] == ToDecimal(-i);
      assert sj[1..] == ToDecimal(-j);
      ValueOfToDecimal(-i);
      ValueOfToDecimal(-j);
    } else {
      ValueOfToDecimal(i);
      ValueOfToDecimal(j);
    }
  }

  /** Leading zeros do not change the value: the pattern accepts "0042" and
      the parse reads it as 42. */
  lemma {:induction false} LeadingZeroIgnored(s: string)
    requires AllDigits(s)
    ensures AllDigits("0" + s)
    ensures Value("0" + s) == Value(s)
    decreases |s|
  {
    if s != [] {
      var p := s[..|s| - 1];
      LeadingZeroIgnored(p);
      assert ("0" + s)[..|s|] == "0" + p;
    }
  }
}
