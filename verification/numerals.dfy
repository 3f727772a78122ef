/** Base-10 rendering of on-chain unsigned integers, as `BigNumber.toString()` and
    JavaScript's `String(n)` produce it: the shortest digit string, "0" for zero. */
module Numerals {

  predicate IsDigit(c: char) {
    '0' <= c <= '9'
  }

  predicate AllDigits(s: string) {
    forall i :: 0 <= i < |s| ==> IsDigit(s[i])
  }

  /** A canonical numeral: at least one digit, and no leading zero unless it is "0". */
  predicate IsCanonical(s: string) {
    |s| >= 1 && AllDigits(s) && (s[0] == '0' ==> |s| == 1)
  }

  function DigitValue(c: char): (d: nat)
    requires IsDigit(c)
    ensures d < 10
  {
    (c as int) - ('0' as int)
  }

  function DigitChar(d: nat): (c: char)
    requires d < 10
    ensures IsDigit(c) && DigitValue(c) == d
    ensures c == '0' <==> d == 0
  {
    (('0' as int) + d) as char
  }

  /** The decimal text of `n`. */
  function ToDecimal(n: nat): (s: string)
    ensures IsCanonical(s)
    ensures |s| == 1 <==> n < 10
  {
    if n < 10 then [DigitChar(n)] else ToDecimal(n / 10) + [DigitChar(n % 10)]
  }

  /** The number a digit string denotes (the reading-back direction). */
  function ValueOf(s: string): (n: nat)
    requires AllDigits(s)
  {
    if |s| == 0 then 0 else 10 * ValueOf(s[..|s| - 1]) + DigitValue(s[|s| - 1])
  }

  /** Reading the decimal text back gives the original number. */
  lemma {:induction false} ValueOfToDecimal(n: nat)
    ensures ValueOf(ToDecimal(n)) == n
  {
    if n >= 10 {
      var s := ToDecimal(n);
      assert s[..|s| - 1] == ToDecimal(n / 10);
      ValueOfToDecimal(n / 10);
    }
  }

  lemma {:induction false} LeadingNonZeroIsPositive(s: string)
    requires |s| >= 1 && AllDigits(s) && s[0] != '0'
    ensures ValueOf(s) >= 1
  {
    if |s| > 1 {
      LeadingNonZeroIsPositive(s[..|s| - 1]);
    }
  }

  /** Every canonical numeral is the decimal text of the number it denotes,
      so canonical numerals and naturals correspond one to one. */
  lemma {:induction false} ToDecimalValueOf(s: string)
    requires IsCanonical(s)
    ensures ToDecimal(ValueOf(s)) == s
  {
    if |s| > 1 {
      var p, d := s[..|s| - 1], DigitValue(s[|s| - 1]);
      assert p[0] == s[0];
      LeadingNonZeroIsPositive(p);
      ToDecimalValueOf(p);
      var v := ValueOf(s);
      assert v == 10 * ValueOf(p) + d;
      assert v / 10 == ValueOf(p) && v % 10 == d;
      assert s == p + [s[|s| - 1]];
    }
  }

  /** Distinct numbers have distinct decimal texts. */
  lemma ToDecimalInjective(m: nat, n: nat)
    ensures ToDecimal(m) == ToDecimal(n) <==> m == n
  {
    if ToDecimal(m) == ToDecimal(n) {
      ValueOfToDecimal(m);
      ValueOfToDecimal(n);
    }
  }
}
