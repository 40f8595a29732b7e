/** Decimal text for integers: Python's `str(int)` and fixed-width digit fields.

    `NatToString`/`IntToString` render a number as `str` does (no leading zeros, a
    minus sign for negatives); `Pad` renders a number in a fixed number of digits, as
    the `%Y`, `%m` and `%d` fields of a date do. `ParseNat`/`ParseInt` read them back,
    and the round-trip lemmas make the parsers the partners of the renderers.
 */
module Decimal {

  predicate IsDigit(c: char) {
    '0' <= c <= '9'
  }

  predicate AllDigits(s: string) {
    forall i :: 0 <= i < |s| ==> IsDigit(s[i])
  }

  function DigitChar(d: nat): (c: char)
    requires d < 10
    ensures IsDigit(c)
  {
    ['0', '1', '2', '3', '4', '5', '6', '7', '8', '9'][d]
  }

  function DigitValue(c: char): (d: nat)
    requires IsDigit(c)
    ensures d < 10
  {
    (c as int - '0' as int) as nat
  }

  lemma DigitRoundTrip(d: nat)
    requires d < 10
    ensures DigitValue(DigitChar(d)) == d
  {
  }

  lemma CharRoundTrip(c: char)
    requires IsDigit(c)
    ensures DigitChar(DigitValue(c)) == c
  {
  }

  /** Python `str(n)` for a non-negative integer: no leading zero, so "0" is the
      only text starting with '0'. */
  function NatToString(n: nat): (s: string)
    ensures |s| > 0 && AllDigits(s)
    ensures n == 0 ==> s == "0"
    ensures n > 0 ==> s[0] != '0'
  {
    if n < 10 then [DigitChar(n)] else NatToString(n / 10) + [DigitChar(n % 10)]
  }

  /** An optional minus sign followed by at least one digit. */
  predicate IsIntText(s: string) {
    |s| > 0 && (if s[0] == '-' then |s| > 1 && AllDigits(s[1..]) else AllDigits(s))
  }

  /** Digits without a superfluous leading zero. */
  predicate CanonicalDigits(s: string) {
    |s| > 0 && AllDigits(s) && (s[0] == '0' ==> |s| == 1)
  }

  /** The text `str` gives an integer: canonical digits, with a minus sign only in
      front of a non-zero number (never "-0" or "007"). */
  predicate CanonicalIntText(s: string) {
    |s| > 0 &&
    if s[0] == '-' then CanonicalDigits(s[1..]) && s[1] != '0' else CanonicalDigits(s)
  }

  /** Python `str(n)` for any integer. */
  function IntToString(n: int): (s: string)
    ensures IsIntText(s) && CanonicalIntText(s)
    ensures n >= 0 <==> s[0] != '-'
  {
    if n >= 0 then NatToString(n) else "-" + NatToString(-n)
  }

  /** The value of a string of decimal digits (0 for the empty string). */
  function ParseNat(s: string): (n: nat)
    requires AllDigits(s)
  {
    if |s| == 0 then 0 else ParseNat(s[..|s| - 1]) * 10 + DigitValue(s[|s| - 1])
  }

  /** Reads back what `IntToString` writes: an optional minus sign, then digits. */
  function ParseInt(s: string): (n: int)
    requires IsIntText(s)
  {
    if s[0] == '-' then 0 - ParseNat(s[1..]) as int else ParseNat(s)
  }

  lemma {:induction false} NatRoundTrip(n: nat)
    ensures ParseNat(NatToString(n)) == n
  {
    if n >= 10 {
      var s := NatToString(n);
      assert s[..|s| - 1] == NatToString(n / 10);
      NatRoundTrip(n / 10);
    }
  }

  /** `IntToString` loses nothing: parsing its output gives the number back. */
  lemma IntRoundTrip(n: int)
    ensures ParseInt(IntToString(n)) == n
  {
    if n >= 0 {
      NatRoundTrip(n);
    } else {
      var s := IntToString(n);
      assert s[1..] == NatToString(-n);
      NatRoundTrip(-n);
    }
  }

  /** Distinct integers have distinct decimal strings. */
  lemma IntToStringInjective(a: int, b: int)
    requires IntToString(a) == IntToString(b)
    ensures a == b
  {
    IntRoundTrip(a);
    IntRoundTrip(b);
  }

  function Pow10(w: nat): (p: nat)
    ensures p >= 1
  {
    if w == 0 then 1 else 10 * Pow10(w - 1)
  }

  /** `n` written in exactly `w` digits with leading zeros, as `%04d` does. */
  function Pad(n: nat, w: nat): (s: string)
    ensures |s| == w && AllDigits(s)
  {
    if w == 0 then [] else Pad(n / 10, w - 1) + [DigitChar(n % 10)]
  }

  /** A number that fits in `w` digits survives padding and parsing. */
  lemma {:induction false} PadRoundTrip(n: nat, w: nat)
    requires n < Pow10(w)
    ensures ParseNat(Pad(n, w)) == n
  {
    if w > 0 {
      var s := Pad(n, w);
      assert s[..|s| - 1] == Pad(n / 10, w - 1);
      PadRoundTrip(n / 10, w - 1);
    }
  }

  /** A digit string is the padding of its own value. */
  lemma {:induction false} ParsePadRoundTrip(s: string)
    requires AllDigits(s)
    ensures ParseNat(s) < Pow10(|s|)
    ensures Pad(ParseNat(s), |s|) == s
  {
    if |s| > 0 {
      var init := s[..|s| - 1];
      ParsePadRoundTrip(init);
      var n := ParseNat(s);
      var d := DigitValue(s[|s| - 1]);
      assert n / 10 == ParseNat(init) && n % 10 == d;
      CharRoundTrip(s[|s| - 1]);
      assert s == init + [s[|s| - 1]];
    }
  }

  /** Canonical digits that do not start with '0' have a positive value. */
  lemma {:induction false} LeadingDigitPositive(s: string)
    requires CanonicalDigits(s) && s[0] != '0'
    ensures ParseNat(s) >= 1
  {
    if |s| > 1 {
      var init := s[..|s| - 1];
      assert init[0] == s[0];
      LeadingDigitPositive(init);
    }
  }

  /** Canonical digits are exactly what `NatToString` writes. */
  lemma {:induction false} CanonicalNatRoundTrip(s: string)
    requires CanonicalDigits(s)
    ensures NatToString(ParseNat(s)) == s
  {
    var n := ParseNat(s);
    var last := s[|s| - 1];
    CharRoundTrip(last);
    if |s| > 1 {
      var init := s[..|s| - 1];
      assert init[0] == s[0];
      LeadingDigitPositive(init);
      CanonicalNatRoundTrip(init);
      assert n / 10 == ParseNat(init) && n % 10 == DigitValue(last);
      assert s == init + [last];
    }
  }

  /** The partner of `IntRoundTrip`: canonical integer text is exactly what
      `IntToString` writes, so `IntToString(n)` is the one canonical text of `n`. */
  lemma IntTextRoundTrip(s: string)
    requires CanonicalIntText(s)
    ensures IsIntText(s) && IntToString(ParseInt(s)) == s
  {
    if s[0] == '-' {
      var digits := s[1..];
      CanonicalNatRoundTrip(digits);
      LeadingDigitPositive(digits);
      assert s == "-" + digits;
    } else {
      CanonicalNatRoundTrip(s);
    }
  }
}
