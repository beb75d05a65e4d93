/**
 * Decimal digit strings: the value `parseInt` gives a run of ASCII digits
 * (the `\d` class of a JavaScript regular expression without the `u` flag),
 * and the decimal text JavaScript prints for a non-negative integer.
 * Values are unbounded naturals; the 2^53 limit of JavaScript numbers is not modelled.
 */
module Decimal {

  predicate IsDigit(c: char) {
    '0' <= c <= '9'
  }

  predicate AllDigits(s: string) {
    forall k :: 0 <= k < |s| ==> IsDigit(s[k])
  }

  function DigitValue(c: char): (d: nat)
    requires IsDigit(c)
    ensures d < 10
  {
    c as int - '0' as int
  }

  function DigitChar(d: nat): (c: char)
    requires d < 10
    ensures IsDigit(c) && DigitValue(c) == d
  {
    ('0' as int + d) as char
  }

  /** The value of a digit string, most significant digit first (the empty string is 0). */
  function Value(s: string): nat
    requires AllDigits(s)
  {
    if s == [] then 0 else 10 * Value(s[..|s| - 1]) + DigitValue(s[|s| - 1])
  }

  /** The decimal text of `n`: at least one digit, and no leading zero unless `n` is 0. */
  function FromNat(n: nat): (s: string)
    ensures |s| > 0 && AllDigits(s)
    ensures s[0] == '0' <==> n == 0
    ensures n == 0 ==> s == "0"
  {
    if n < 10 then [DigitChar(n)] else FromNat(n / 10) + [DigitChar(n % 10)]
  }

  /** Reading back the printed text of `n` gives `n`. */
  lemma {:induction false} ValueOfFromNat(n: nat)
    ensures Value(FromNat(n)) == n
  {
    if n >= 10 {
      var s := FromNat(n);
      assert s[..|s| - 1] == FromNat(n / 10);
      ValueOfFromNat(n / 10);
    }
  }

  /** Two naturals with the same decimal text are equal. */
  lemma FromNatInjective(m: nat, n: nat)
    requires FromNat(m) == FromNat(n)
    ensures m == n
  {
    ValueOfFromNat(m);
    ValueOfFromNat(n);
  }

  /** A leading zero does not change the value of a digit string. */
  lemma {:induction false} LeadingZero(s: string)
    requires AllDigits(s)
    ensures AllDigits(['0'] + s) && Value(['0'] + s) == Value(s)
  {
    var t := ['0'] + s;
    if s != [] {
      assert t[..|t| - 1] == ['0'] + s[..|s| - 1];
      LeadingZero(s[..|s| - 1]);
    }
  }

  /** Any number of leading zeros does not change the value of a digit string. */
  lemma {:induction false} LeadingZeros(zeros: string, s: string)
    requires forall k :: 0 <= k < |zeros| ==> zeros[k] == '0'
    requires AllDigits(s)
    ensures AllDigits(zeros + s) && Value(zeros + s) == Value(s)
  {
    if zeros != [] {
      LeadingZeros(zeros[1..], s);
      assert zeros == ['0'] + zeros[1..];
      assert zeros + s == ['0'] + (zeros[1..] + s);
      LeadingZero(zeros[1..] + s);
    } else {
      assert zeros + s == s;
    }
  }
}
