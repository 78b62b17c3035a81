/** Decimal numerals, as the ids `prod-N` and `order-N` embed a non-negative
    integer. */
module Decimal {

  function DigitChar(d: nat): (c: char)
    requires d < 10
    ensures c as int == '0' as int + d
  {
    "0123456789"[d]
  }

  /** The numeral of `n`: most significant digit first, no leading zeros. */
  function Digits(n: nat): (s: string)
    ensures |s| >= 1
    ensures n >= 10 ==> |s| >= 2
    decreases n
  {
    if n < 10 then [DigitChar(n)] else Digits(n / 10) + [DigitChar(n % 10)]
  }

  /** A numeral of two or more digits is the numeral of `n / 10` followed by the last digit. */
  lemma DigitsLast(n: nat)
    requires n >= 10
    ensures Digits(n)[..|Digits(n)| - 1] == Digits(n / 10)
    ensures Digits(n)[|Digits(n)| - 1] == DigitChar(n % 10)
  {
  }

  /** Distinct numbers have distinct numerals. */
  lemma {:induction false} DigitsInjective(a: nat, b: nat)
    requires Digits(a) == Digits(b)
    ensures a == b
    decreases a
  {
    if a < 10 && b < 10 {
      assert DigitChar(a) == Digits(a)[0] == DigitChar(b);
    } else if a >= 10 && b >= 10 {
      DigitsLast(a);
      DigitsLast(b);
      DigitsInjective(a / 10, b / 10);
      assert a == a / 10 * 10 + a % 10 && b == b / 10 * 10 + b % 10;
    }
  }

  /** Two ids built from one prefix and two numbers are equal only when the numbers are. */
  lemma PrefixedDigitsInjective(prefix: string, a: nat, b: nat)
    requires prefix + Digits(a) == prefix + Digits(b)
    ensures a == b
  {
    assert Digits(a) == (prefix + Digits(a))[|prefix|..];
    assert Digits(b) == (prefix + Digits(b))[|prefix|..];
    DigitsInjective(a, b);
  }
}
