/** Decimal text of integers, as `Int.toString`, `Long.toString` and string
    templates produce it, together with the reading that inverts it. */
module Decimal {

  predicate IsDigit(c: char) {
    '0' <= c <= '9'
  }

  function DigitChar(d: nat): (c: char)
    requires d < 10
    ensures IsDigit(c)
  {
    (('0' as int) + d) as char
  }

  function DigitValue(c: char): int {
    (c as int) - ('0' as int)
  }

  /** The digits of a natural number, most significant first, no leading zeros. */
  function Digits(n: nat): (s: string)
    ensures |s| > 0
    ensures forall i :: 0 <= i < |s| ==> IsDigit(s[i])
    ensures s[0] == '0' ==> n == 0 && |s| == 1
    decreases n
  {
    if n < 10 then [DigitChar(n)] else Digits(n / 10) + [DigitChar(n % 10)]
  }

  /** Reads a string of digits back as a number. */
  function FromDigits(s: string): int
    decreases |s|
  {
    if |s| == 0 then 0 else FromDigits(s[..|s| - 1]) * 10 + DigitValue(s[|s| - 1])
  }

  /** A run of digits with no superfluous leading zero. */
  predicate CanonicalDigits(s: string) {
    && |s| > 0
    && (forall i :: 0 <= i < |s| ==> IsDigit(s[i]))
    && (s[0] == '0' ==> |s| == 1)
  }

  /** Decimal text as `toString` writes it: canonical digits, after a '-'
      for negative values, and never "-0". */
  predicate Canonical(s: string) {
    if |s| > 0 && s[0] == '-' then CanonicalDigits(s[1..]) && s[1] != '0' else CanonicalDigits(s)
  }

  /** Decimal text of an integer, with a leading '-' for negative values. */
  function ToDecimal(n: int): (s: string)
    ensures Canonical(s)
    ensures s[0] == '-' <==> n < 0
  {
    if n < 0 then "-" + Digits(-n) else Digits(n)
  }

  /** Reads decimal text with an optional leading '-'. */
  function FromDecimal(s: string): int {
    if |s| > 0 && s[0] == '-' then -FromDigits(s[1..]) else FromDigits(s)
  }

  lemma {:induction false} DigitsRoundTrip(n: nat)
    ensures FromDigits(Digits(n)) == n
    decreases n
  {
    if n >= 10 {
      var s := Digits(n);
      assert s[..|s| - 1] == Digits(n / 10);
      DigitsRoundTrip(n / 10);
    }
  }

  /** Decimal text determines the number it was made from. */
  lemma DecimalRoundTrip(n: int)
    ensures FromDecimal(ToDecimal(n)) == n
  {
    if n < 0 {
      assert ToDecimal(n)[1..] == Digits(-n);
      DigitsRoundTrip(-n);
    } else {
      DigitsRoundTrip(n);
    }
  }

  /** Different numbers have different decimal texts. */
  lemma DecimalInjective(m: int, n: int)
    requires ToDecimal(m) == ToDecimal(n)
    ensures m == n
  {
    DecimalRoundTrip(m);
    DecimalRoundTrip(n);
  }

  lemma {:induction false} DigitCharValue(c: char)
    requires IsDigit(c)
    ensures 0 <= DigitValue(c) < 10 && DigitChar(DigitValue(c)) == c
  {
  }

  /** Digits that do not start with '0' stand for a positive number. */
  lemma {:induction false} LeadingDigitPositive(s: string)
    requires CanonicalDigits(s) && s[0] != '0'
    ensures FromDigits(s) >= 1
    decreases |s|
  {
    if |s| > 1 {
      var p := s[..|s| - 1];
      assert p[0] == s[0];
      LeadingDigitPositive(p);
    }
  }

  /** Canonical digits are the only digits of the number they stand for. */
  lemma {:induction false} CanonicalDigitsUnique(s: string)
    requires CanonicalDigits(s)
    ensures FromDigits(s) >= 0 && Digits(FromDigits(s)) == s
    decreases |s|
  {
    var c := s[|s| - 1];
    DigitCharValue(c);
    if |s| == 1 {
      assert FromDigits(s[..0]) == 0;
    } else {
      var p := s[..|s| - 1];
      assert p[0] == s[0];
      assert s[0] != '0';
      CanonicalDigitsUnique(p);
      LeadingDigitPositive(p);
      var m := FromDigits(s);
      assert m == FromDigits(p) * 10 + DigitValue(c);
      assert m / 10 == FromDigits(p) && m % 10 == DigitValue(c);
      assert s == p + [c];
    }
  }

  /** Canonical text is the only canonical text of the number it stands for:
      `ToDecimal` is exactly `toString`, not merely some text that reads back. */
  lemma CanonicalUnique(s: string)
    requires Canonical(s)
    ensures ToDecimal(FromDecimal(s)) == s
  {
    if s[0] == '-' {
      CanonicalDigitsUnique(s[1..]);
      LeadingDigitPositive(s[1..]);
      assert s == "-" + s[1..];
    } else {
      CanonicalDigitsUnique(s);
    }
  }
}
