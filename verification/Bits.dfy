/** ECMAScript's 32-bit integer operations, on integers. */
module Bits {
  const WORD := 0x1_0000_0000

  function Pow2(n: nat): (p: nat)
    ensures p > 0
  {
    if n == 0 then 1 else 2 * Pow2(n - 1)
  }

  function ToUint32(x: int): nat {
    x % WORD
  }

  function ToInt32(x: int): int {
    var u := x % WORD;
    if u >= WORD / 2 then u - WORD else u
  }

  function ShiftLeft(x: int, n: nat): int {
    ToInt32(ToInt32(x) * Pow2(n % 32))
  }

  /** `x >>> 0`. */
  function Unsigned(x: int): nat {
    ToUint32(x)
  }

  /** Digit by digit, in base two. */
  function AndDigits(a: nat, b: nat): nat {
    if a == 0 || b == 0 then 0 else 2 * AndDigits(a / 2, b / 2) + (a % 2) * (b % 2)
  }

  function And(a: int, b: int): int {
    ToInt32(AndDigits(ToUint32(a), ToUint32(b)))
  }

  lemma {:induction false} Pow2Split(n: nat, k: nat)
    ensures Pow2(n + k) == Pow2(n) * Pow2(k)
  {
    if n > 0 {
      Pow2Split(n - 1, k);
    }
  }

  lemma {:induction false} Word()
    ensures Pow2(32) == WORD
  {
    Pow2Split(16, 16);
    Pow2Split(8, 8);
  }

  lemma {:induction false} TimesGrows(p: nat, q: nat, r: nat)
    requires q < r
    ensures q * p + p <= r * p
    decreases r
  {
    if q + 1 < r {
      TimesGrows(p, q, r - 1);
    }
    assert r * p == (r - 1) * p + p;
  }

  lemma {:induction false} DivisionIsUnique(a: nat, d: nat, q: nat, r: nat)
    requires d > 0 && a == q * d + r && r < d
    ensures a / d == q
  {
    var q' := a / d;
    assert a == q' * d + a % d;
    if q' < q {
      TimesGrows(d, q', q);
    } else if q < q' {
      TimesGrows(d, q, q');
    }
  }

  lemma {:induction false} Doubled(q: nat, p: nat)
    ensures q * (2 * p) == 2 * (q * p)
  {
  }

  lemma {:induction false} HalfOfQuotient(a: nat, p: nat)
    requires p > 0
    ensures a / (2 * p) == (a / 2) / p
  {
    var q, r := (a / 2) / p, (a / 2) % p;
    assert a / 2 == q * p + r;
    Doubled(q, p);
    DivisionIsUnique(a, 2 * p, q, 2 * r + a % 2);
  }

  lemma {:induction false} AndStep(a: nat, b: nat)
    ensures AndDigits(a, b) == 2 * AndDigits(a / 2, b / 2) + if b % 2 == 0 then 0 else a % 2
  {
    if a == 0 || b == 0 {
      assert AndDigits(a / 2, b / 2) == 0;
    }
  }

  /** One more zero below the mask: the digit of a there is dropped. */
  lemma {:induction false} ShiftedMask(a: nat, m: nat, p: nat, half: nat)
    requires p > 0 && AndDigits(a / 2, m) == half * p && half == (a / 2) / p
    ensures AndDigits(a, 2 * m) == (a / (2 * p)) * (2 * p)
  {
    AndStep(a, 2 * m);
    HalfOfQuotient(a, p);
    Doubled(half, p);
  }

  /** A mask of ones keeps everything that fits. */
  lemma {:induction false} AllOnesKeep(a: nat, w: nat)
    requires a < Pow2(w)
    ensures AndDigits(a, Pow2(w) - 1) == a
  {
    if w > 0 {
      AllOnesKeep(a / 2, w - 1);
      AndStep(a, Pow2(w) - 1);
      assert (Pow2(w) - 1) / 2 == Pow2(w - 1) - 1;
    }
  }

  /** A mask of w - s ones over s zeros clears the low s digits. */
  lemma {:induction false} MaskClearsLowDigits(a: nat, w: nat, s: nat)
    requires s <= w && a < Pow2(w)
    ensures Pow2(s) <= Pow2(w)
    ensures AndDigits(a, Pow2(w) - Pow2(s)) == (a / Pow2(s)) * Pow2(s)
    decreases w
  {
    if s > 0 {
      MaskClearsLowDigits(a / 2, w - 1, s - 1);
      var p := Pow2(s - 1);
      ShiftedMask(a, Pow2(w - 1) - p, p, (a / 2) / p);
    } else {
      AllOnesKeep(a, w);
    }
  }

  lemma {:induction false} ShiftFits(x: nat, n: nat, p: nat)
    requires n < 32 && p == Pow2(n) && x < WORD / 2 && x * p < WORD
    ensures Unsigned(ShiftLeft(x, n)) == x * p
  {
  }

  lemma {:induction false} Int32IsInjective(a: nat, b: nat)
    requires a < WORD && b < WORD
    ensures ToInt32(a) == ToInt32(b) <==> a == b
  {
  }

  lemma {:induction false} Pow2Monotone(m: nat, n: nat)
    requires m <= n
    ensures Pow2(m) <= Pow2(n)
  {
    if m < n {
      Pow2Monotone(m, n - 1);
    }
  }

  lemma {:induction false} MinusPower(p: nat)
    requires 0 < p && 2 * p <= WORD
    ensures Unsigned(ToInt32(0 - p)) == WORD - p
  {
  }

  /** `(0xffffffff << s) >>> 0`. */
  lemma {:induction false} ShiftedOnes(s: nat)
    requires 0 < s < 32
    ensures Unsigned(ShiftLeft(0xffff_ffff, s)) == WORD - Pow2(s)
  {
    Word();
    Pow2Monotone(s + 1, 32);
    MinusPower(Pow2(s));
    assert ToInt32(0xffff_ffff) == -1;
    assert -1 * Pow2(s % 32) == 0 - Pow2(s);
  }
}
