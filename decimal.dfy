/**
 * What `std::stringstream << n` writes for an integer `n` in the default
 * stream state: decimal digits, most significant first, no leading zeros,
 * and a leading '-' for a negative value. Every debug string of the event
 * classes is built from literals and such numerals.
 */
module Decimal {

  predicate IsDigit(c: char) {
    '0' <= c <= '9'
  }

  /** Every character is a decimal digit. */
  predicate AllDigits(s: string) {
    forall i :: 0 <= i < |s| ==> IsDigit(s[i])
  }

  /** Every character is a decimal digit or a minus sign. */
  predicate IsNumeral(s: string) {
    forall i :: 0 <= i < |s| ==> IsDigit(s[i]) || s[i] == '-'
  }

  function DigitChar(d: nat): (c: char)
    requires d < 10
    ensures IsDigit(c) && c as int - '0' as int == d
  {
    ('0' as int + d) as char
  }

  function DigitValue(c: char): (d: int) {
    c as int - '0' as int
  }

  /** The characters the stream writes for a non-negative integer. */
  function NatToDecimal(n: nat): (s: string)
    ensures |s| >= 1 && AllDigits(s)
    ensures s[0] == '0' ==> n == 0 && s == "0"
    decreases n
  {
    if n < 10 then [DigitChar(n)] else NatToDecimal(n / 10) + [DigitChar(n % 10)]
  }

  /** The characters the stream writes for a signed integer. */
  function IntToDecimal(i: int): (s: string)
    ensures |s| >= 1 && IsNumeral(s)
    ensures s[0] == '-' <==> i < 0
    ensures i < 0 ==> |s| >= 2 && AllDigits(s[1..]) && s[1] != '0'
    ensures i >= 0 ==> AllDigits(s) && (s[0] == '0' ==> i == 0 && s == "0")
  {
    if i < 0 then
      var digits := NatToDecimal(-i);
      assert ("-" + digits)[1..] == digits;
      "-" + digits
    else NatToDecimal(i)
  }

  /** Reads a string of digits back as a number: the inverse of NatToDecimal. */
  function DecimalValue(s: string): (n: int) {
    if s == [] then 0 else DecimalValue(s[..|s| - 1]) * 10 + DigitValue(s[|s| - 1])
  }

  /** Reads an optionally signed numeral back: the inverse of IntToDecimal. */
  function SignedDecimalValue(s: string): (i: int) {
    if |s| > 0 && s[0] == '-' then -DecimalValue(s[1..]) else DecimalValue(s)
  }

  lemma {:induction false} NatToDecimalRoundTrip(n: nat)
    ensures DecimalValue(NatToDecimal(n)) == n
    decreases n
  {
    if n >= 10 {
      var s := NatToDecimal(n);
      assert s[..|s| - 1] == NatToDecimal(n / 10);
      NatToDecimalRoundTrip(n / 10);
    }
  }

  lemma IntToDecimalRoundTrip(i: int)
    ensures SignedDecimalValue(IntToDecimal(i)) == i
  {
    if i < 0 {
      assert IntToDecimal(i)[1..] == NatToDecimal(-i);
      NatToDecimalRoundTrip(-i);
    } else {
      NatToDecimalRoundTrip(i);
    }
  }

  /** Distinct values print as distinct numerals. */
  lemma IntToDecimalInjective(i: int, j: int)
    requires IntToDecimal(i) == IntToDecimal(j)
    ensures i == j
  {
    IntToDecimalRoundTrip(i);
    IntToDecimalRoundTrip(j);
  }

  /** A numeral never contains a character other than a digit or '-'. */
  lemma NumeralExcludes(s: string, c: char)
    requires IsNumeral(s) && !IsDigit(c) && c != '-'
    ensures c !in s
  {
  }

  /**
   * If `sep` occurs in neither `a` nor `a'`, then `a + [sep] + b` splits at its
   * first `sep` in exactly one way.
   */
  lemma SplitAtFirst(a: string, b: string, a': string, b': string, sep: char)
    requires sep !in a && sep !in a'
    requires a + [sep] + b == a' + [sep] + b'
    ensures a == a' && b == b'
  {
    var s := a + [sep] + b;
    ConcatAt(a, sep, b);
    ConcatAt(a', sep, b');
    if |a| < |a'| {
      assert false;
    } else if |a'| < |a| {
      assert false;
    } else {
      assert a == s[..|a|] == a';
      assert b == s[|a| + 1..] == b';
    }
  }

  lemma ConcatAt(a: string, c: char, b: string)
    ensures (a + [c] + b)[|a|] == c
    ensures forall i :: 0 <= i < |a| ==> (a + [c] + b)[i] == a[i]
  {
  }
}
