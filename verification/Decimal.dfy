/** Decimal notation of integers, as string formatting writes them. */
module Decimal {
  const DIGITS := "0123456789"

  function Digits(n: nat): (s: string)
    ensures |s| > 0 && forall i :: 0 <= i < |s| ==> s[i] in DIGITS
  {
    if n < 10 then [DIGITS[n]] else Digits(n / 10) + [DIGITS[n % 10]]
  }

  function ToDecimal(n: int): string {
    if n < 0 then "-" + Digits(-n) else Digits(n)
  }

  lemma DecimalDigits(n: int)
    ensures forall c :: c in ToDecimal(n) ==> c == '-' || c in DIGITS
  {
  }

  /** The number that a digit string denotes in base ten. */
  function Value(s: string): int {
    if s == "" then 0 else 10 * Value(s[..|s| - 1]) + (s[|s| - 1] as int - '0' as int)
  }

  lemma {:induction false} DigitsDenote(n: nat)
    ensures Value(Digits(n)) == n
    ensures |Digits(n)| > 1 ==> Digits(n)[0] != '0'
    ensures Digits(n) == "0" <==> n == 0
  {
    var s := Digits(n);
    assert forall d :: 0 <= d < 10 ==> DIGITS[d] as int - '0' as int == d;
    if n < 10 {
      assert s[..0] == "";
    } else {
      DigitsDenote(n / 10);
      assert s[..|s| - 1] == Digits(n / 10) && s[|s| - 1] == DIGITS[n % 10];
      assert n / 10 > 0;
    }
  }

  /** The notation denotes the number, with a minus sign and no leading zero. */
  lemma DecimalDenotes(n: int)
    ensures var s := ToDecimal(n);
            if n < 0 then s[0] == '-' && Value(s[1..]) == -n && s[1] != '0'
            else Value(s) == n && s[0] != '-' && (s[0] == '0' ==> s == "0")
    ensures |ToDecimal(n)| > if n < 0 then 1 else 0
  {
    DigitsDenote(if n < 0 then -n else n);
    assert '-' !in DIGITS;
    if n < 0 {
      assert ToDecimal(n)[1..] == Digits(-n);
    }
  }

  /** Different integers are written differently. */
  lemma DecimalInjective(m: int, n: int)
    requires ToDecimal(m) == ToDecimal(n)
    ensures m == n
  {
    DecimalDenotes(m);
    DecimalDenotes(n);
  }
}
