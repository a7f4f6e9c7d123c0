/** Natural numbers as decimal digits, for keys that carry a counter. */
module Decimal {

  const DIGITS := "0123456789"

  function Digits(n: nat): (s: string)
    ensures |s| > 0
  {
    if n < 10 then [DIGITS[n]] else Digits(n / 10) + [DIGITS[n % 10]]
  }

  lemma DigitDiffers(a: nat, b: nat)
    requires a < 10 && b < 10 && DIGITS[a] == DIGITS[b]
    ensures a == b
  {
  }

  lemma {:induction false} DigitsDiffer(a: nat, b: nat)
    requires Digits(a) == Digits(b)
    ensures a == b
  {
    if a < 10 && b < 10 {
      DigitDiffers(a, b);
    } else if a >= 10 && b >= 10 {
      var x, y := Digits(a / 10), Digits(b / 10);
      assert Digits(a)[|Digits(a)| - 1] == DIGITS[a % 10] && Digits(b)[|Digits(b)| - 1] == DIGITS[b % 10];
      assert Digits(a)[..|Digits(a)| - 1] == x && Digits(b)[..|Digits(b)| - 1] == y;
      DigitDiffers(a % 10, b % 10);
      DigitsDiffer(a / 10, b / 10);
    }
  }
}
