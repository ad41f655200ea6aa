/** Decimal digits. */
module Decimal {
  function Digit(d: int): char
    requires 0 <= d < 10
  {
    "0123456789"[d]
  }

  predicate IsDigit(c: char) {
    '0' <= c <= '9'
  }

  function DigitValue(c: char): int {
    c as int - '0' as int
  }

  function Pow10(width: nat): nat {
    if width == 0 then 1 else 10 * Pow10(width - 1)
  }

  /** A fixed width of zero-padded decimal digits. */
  function Padded(n: nat, width: nat): (s: string)
    ensures |s| == width && AllDigits(s)
  {
    if width == 0 then "" else Padded(n / 10, width - 1) + [Digit(n % 10)]
  }

  function Number(s: string): int {
    if s == "" then 0 else 10 * Number(s[..|s| - 1]) + DigitValue(s[|s| - 1])
  }

  predicate AllDigits(s: string) {
    forall c :: c in s ==> IsDigit(c)
  }

  lemma {:induction false} NumberOfPadded(n: nat, width: nat)
    requires n < Pow10(width)
    ensures Number(Padded(n, width)) == n
  {
    if width > 0 {
      var s := Padded(n, width);
      NumberOfPadded(n / 10, width - 1);
      assert s[..width - 1] == Padded(n / 10, width - 1) && s[width - 1] == Digit(n % 10);
    }
  }

  /** The last character is the digit of the ones, and what stands before it is a tenth of the number. */
  lemma {:induction false} OnesLast(n: nat, width: nat)
    requires width > 0
    ensures Padded(n, width)[width - 1] as int == '0' as int + n % 10
    ensures Padded(n, width)[..width - 1] == Padded(n / 10, width - 1)
  {}

  lemma {:induction false} OneMoreDigit(s: string, c: char)
    requires IsDigit(c)
    ensures Number(s + [c]) == 10 * Number(s) + (c as int - '0' as int) && Number("") == 0
  {
    assert (s + [c])[..|s|] == s;
  }
}
