/**
 * The decimal numeral Python's `str` writes for an int: a leading '-' for a
 * negative number and no leading zeros. The digit limit of recent Python
 * versions is not modelled. `ParseDecimal` is its reference inverse
 * over canonical numerals; the two lemmas at the end show that the two form a
 * bijection between `int` and canonical numerals.
 */
module Decimal {
  import opened Wrappers

  predicate IsDigit(c: char) {
    '0' <= c <= '9'
  }

  predicate AllDigits(s: string) {
    forall i :: 0 <= i < |s| ==> IsDigit(s[i])
  }

  /** A numeral for a natural number as `str` writes it: digits only, no leading zero. */
  predicate IsCanonicalNat(s: string) {
    |s| > 0 && AllDigits(s) && (s[0] == '0' ==> |s| == 1)
  }

  /** A numeral as `str` writes it for any integer; "-0" is not one. */
  predicate IsCanonical(s: string) {
    || IsCanonicalNat(s)
    || (|s| >= 2 && s[0] == '-' && IsCanonicalNat(s[1..]) && s[1] != '0')
  }

  function DigitValue(c: char): (d: nat)
    requires IsDigit(c)
    ensures d < 10
  {
    c as int - '0' as int
  }

  function DigitChar(d: nat): (c: char)
    requires d < 10
    ensures IsDigit(c) && DigitValue(c) == d
  {
    ('0' as int + d) as char
  }

  /** `str(n)` for a natural number n. */
  function NatDigits(n: nat): (s: string)
    ensures IsCanonicalNat(s)
    ensures s[0] == '0' <==> n == 0
    decreases n
  {
    if n < 10 then [DigitChar(n)] else NatDigits(n / 10) + [DigitChar(n % 10)]
  }

  /** `str(n)` for any integer n. */
  function DecimalString(n: int): (s: string)
    ensures IsCanonical(s)
  {
    if n < 0 then "-" + NatDigits(-n) else NatDigits(n)
  }

  /** The value of a string of digits, most significant first. */
  function ParseNat(s: string): nat
    requires AllDigits(s)
  {
    if s == [] then 0 else ParseNat(s[..|s| - 1]) * 10 + DigitValue(s[|s| - 1])
  }

  /** The integer a canonical numeral denotes; `None` for anything else. */
  function ParseDecimal(s: string): (r: Option<int>)
    ensures r.Some? <==> IsCanonical(s)
  {
    if IsCanonicalNat(s) then Some(ParseNat(s))
    else if |s| >= 2 && s[0] == '-' && IsCanonicalNat(s[1..]) && s[1] != '0' then Some(0 - ParseNat(s[1..]) as int)
    else None
  }

  lemma {:induction false} ParseNatDigits(n: nat)
    ensures ParseNat(NatDigits(n)) == n
    decreases n
  {
    var s := NatDigits(n);
    if n >= 10 {
      ParseNatDigits(n / 10);
      assert s[..|s| - 1] == NatDigits(n / 10);
    }
  }

  /** Reading back what `str` wrote gives the original integer. */
  lemma DecimalRoundTrip(n: int)
    ensures ParseDecimal(DecimalString(n)) == Some(n)
  {
    if n < 0 {
      ParseNatDigits(-n);
      assert DecimalString(n)[1..] == NatDigits(-n);
    } else {
      ParseNatDigits(n);
    }
  }

  lemma {:induction false} ParseNatPositive(s: string)
    requires |s| > 0 && AllDigits(s) && s[0] != '0'
    ensures ParseNat(s) > 0
    decreases |s|
  {
    if |s| > 1 {
      ParseNatPositive(s[..|s| - 1]);
    }
  }

  lemma {:induction false} NatDigitsParse(s: string)
    requires IsCanonicalNat(s)
    ensures NatDigits(ParseNat(s)) == s
    decreases |s|
  {
    var p, c := s[..|s| - 1], s[|s| - 1];
    var a, d := ParseNat(p), DigitValue(c);
    if |s| == 1 {
      assert ParseNat(s) == d;
      assert DigitChar(d) == c;
    } else {
      ParseNatPositive(p);
      NatDigitsParse(p);
      var n := a * 10 + d;
      assert n / 10 == a && n % 10 == d;
      assert DigitChar(d) == c;
      assert s == p + [c];
    }
  }

  /** Every canonical numeral is what `str` writes for the integer it denotes. */
  lemma DecimalStringParse(s: string)
    requires IsCanonical(s)
    ensures DecimalString(ParseDecimal(s).value) == s
  {
    if IsCanonicalNat(s) {
      NatDigitsParse(s);
    } else {
      NatDigitsParse(s[1..]);
      ParseNatPositive(s[1..]);
      assert s == "-" + s[1..];
    }
  }

  /** Distinct integers have distinct numerals. */
  lemma DecimalStringInjective(a: int, b: int)
    ensures DecimalString(a) == DecimalString(b) ==> a == b
  {
    DecimalRoundTrip(a);
    DecimalRoundTrip(b);
  }
}
