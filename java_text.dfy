/**
  The pieces of Java's string library that the credential object relies on:
  the decimal rendering of an `int` (`String.format("%d", …)` and
  `Integer.toString`) and `String.length()`, which counts UTF-16 code units.
  `ParseDecimal` is a reference reader used only to state that the rendering
  loses nothing.
 */
module JavaText {
  import opened Wrappers

  /** A Java `int`. */
  newtype Int32 = x: int | -0x8000_0000 <= x < 0x8000_0000

  predicate IsDigit(c: char) {
    '0' <= c <= '9'
  }

  predicate AllDigits(s: string) {
    forall i :: 0 <= i < |s| ==> IsDigit(s[i])
  }

  function DigitChar(d: nat): (c: char)
    requires d < 10
    ensures IsDigit(c)
  {
    ('0' as int + d) as char
  }

  function DigitValue(c: char): (d: nat)
    requires IsDigit(c)
    ensures d < 10 && DigitChar(d) == c
  {
    c as int - '0' as int
  }

  /** The decimal digits of `n`, most significant first, without leading zeros. */
  function NatToDecimal(n: nat): (s: string)
    ensures |s| >= 1 && AllDigits(s)
    ensures (s[0] == '0') <==> n == 0
    ensures n == 0 ==> |s| == 1
    decreases n
  {
    if n < 10 then [DigitChar(n)] else NatToDecimal(n / 10) + [DigitChar(n % 10)]
  }

  /** A digit string as Java writes one: non-empty, with no leading zero unless it is "0". */
  predicate Canonical(s: string) {
    |s| > 0 && AllDigits(s) && (|s| > 1 ==> s[0] != '0')
  }

  /**
    Java's rendering of an integer: a minus sign exactly for negative values,
    then the digits without leading zeros.
   */
  function IntToDecimal(n: int): (r: string)
    ensures |r| >= 1 && (r[0] == '-' <==> n < 0)
    ensures n >= 0 ==> Canonical(r)
    ensures n < 0 ==> Canonical(r[1..]) && r[1] != '0'
  {
    if n < 0 then
      var digits := NatToDecimal(-n);
      assert ("-" + digits)[1..] == digits;
      "-" + digits
    else NatToDecimal(n)
  }

  /** The value of a string of decimal digits; the empty string has value 0. */
  function DigitsValue(s: string): nat
    requires AllDigits(s)
  {
    if s == [] then 0 else DigitsValue(s[..|s| - 1]) * 10 + DigitValue(s[|s| - 1])
  }

  /**
    Reads a decimal integer in the form Java writes it: an optional minus sign
    on a non-zero value, then canonical digits; `None` for anything else.
   */
  function ParseDecimal(s: string): Option<int> {
    if |s| > 0 && s[0] == '-' then
      (if Canonical(s[1..]) && s[1] != '0' then Some(-(DigitsValue(s[1..]) as int)) else None)
    else if Canonical(s) then Some(DigitsValue(s))
    else None
  }

  lemma {:induction false} DigitsValueOfNatToDecimal(n: nat)
    ensures DigitsValue(NatToDecimal(n)) == n
    decreases n
  {
    if n >= 10 {
      var s := NatToDecimal(n);
      assert s[..|s| - 1] == NatToDecimal(n / 10);
      DigitsValueOfNatToDecimal(n / 10);
    }
  }

  lemma ParseNatDecimal(n: nat)
    ensures ParseDecimal(NatToDecimal(n)) == Some(n)
  {
    var s := NatToDecimal(n);
    assert IsDigit(s[0]);
    DigitsValueOfNatToDecimal(n);
  }

  lemma ParseNegativeDecimal(n: nat)
    requires n > 0
    ensures ParseDecimal("-" + NatToDecimal(n)) == Some(-(n as int))
  {
    var s := "-" + NatToDecimal(n);
    assert s[0] == '-' && s[1..] == NatToDecimal(n);
    DigitsValueOfNatToDecimal(n);
  }

  /** The decimal rendering of an integer reads back as that integer. */
  lemma DecimalRoundTrip(n: int)
    ensures ParseDecimal(IntToDecimal(n)) == Some(n)
  {
    if n < 0 {
      ParseNegativeDecimal(-n);
    } else {
      ParseNatDecimal(n);
    }
  }

  /** A canonical digit string other than "0" has a positive value. */
  lemma {:induction false} CanonicalPositive(s: string)
    requires Canonical(s) && s[0] != '0'
    ensures DigitsValue(s) >= 1
    decreases |s|
  {
    if |s| > 1 {
      var p := s[..|s| - 1];
      assert p[0] == s[0];
      CanonicalPositive(p);
    }
  }

  /** A canonical digit string is the rendering of its own value. */
  lemma {:induction false} CanonicalIsRendering(s: string)
    requires Canonical(s)
    ensures NatToDecimal(DigitsValue(s)) == s
    decreases |s|
  {
    var d := DigitValue(s[|s| - 1]);
    if |s| == 1 {
      assert DigitsValue(s) == DigitsValue(s[..0]) * 10 + d;
      assert s[..0] == [];
    } else {
      var p := s[..|s| - 1];
      assert p[0] == s[0];
      CanonicalPositive(p);
      CanonicalIsRendering(p);
      var n := DigitsValue(s);
      assert n == DigitsValue(p) * 10 + d && n >= 10;
      assert n / 10 == DigitsValue(p) && n % 10 == d;
      assert s == p + [s[|s| - 1]];
    }
  }

  /**
    The reader accepts exactly Java's renderings: a string that reads as `n`
    is the rendering of `n`, so no other text can stand for the same value.
   */
  lemma ParsedIsRendering(s: string, n: int)
    requires ParseDecimal(s) == Some(n)
    ensures s == IntToDecimal(n)
  {
    if |s| > 0 && s[0] == '-' {
      var digits := s[1..];
      CanonicalPositive(digits);
      CanonicalIsRendering(digits);
      assert s == "-" + digits;
    } else {
      CanonicalIsRendering(s);
    }
  }

  /** Distinct integers have distinct renderings. */
  lemma DecimalInjective(a: int, b: int)
    requires IntToDecimal(a) == IntToDecimal(b)
    ensures a == b
  {
    DecimalRoundTrip(a);
    DecimalRoundTrip(b);
  }

  /**
    Java's `String.length()`: characters outside the Basic Multilingual Plane
    are stored as a surrogate pair and count twice.
   */
  function Utf16Length(s: string): (n: nat)
    ensures |s| <= n <= 2 * |s|
    ensures (forall i :: 0 <= i < |s| ==> s[i] as int < 0x1_0000) ==> n == |s|
  {
    if s == [] then 0
    else (if s[0] as int < 0x1_0000 then 1 else 2) + Utf16Length(s[1..])
  }
}
