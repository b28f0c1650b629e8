/** Decimal numerals, as `%d` prints non-negative integers. */
module Decimal {
  const Digits := "0123456789"

  function Numeral(n: nat): (s: string)
    ensures |s| > 0 && forall i :: 0 <= i < |s| ==> s[i] in Digits
  {
    if n < 10 then [Digits[n]] else Numeral(n / 10) + [Digits[n % 10]]
  }

  lemma LastDigit(n: nat)
    ensures Numeral(n)[|Numeral(n)| - 1] == Digits[n % 10]
    ensures if n < 10 then |Numeral(n)| == 1 else |Numeral(n)| > 1 && Numeral(n)[..|Numeral(n)| - 1] == Numeral(n / 10)
  {
  }

  lemma DigitsDiffer(i: nat, j: nat)
    requires i < 10 && j < 10 && Digits[i] == Digits[j]
    ensures i == j
  {
  }

  /** Different numbers print differently. */
  lemma {:induction false} NumeralInjective(a: nat, b: nat)
    requires Numeral(a) == Numeral(b)
    ensures a == b
  {
    hide Numeral, Digits;
    LastDigit(a);
    LastDigit(b);
    DigitsDiffer(a % 10, b % 10);
    if a >= 10 && b >= 10 {
      NumeralInjective(a / 10, b / 10);
    }
  }
}
