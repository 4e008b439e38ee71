/** 64-bit words as numbers below 2^64, with the bitwise operations the generators use on them. */
module Words {
  import opened Arithmetic

  function Pow2(n: nat): (p: nat)
    ensures p >= 1
  {
    if n == 0 then 1 else 2 * Pow2(n - 1)
  }

  /** Bitwise exclusive or and or, and the shift to the right. */
  function Xor(a: nat, b: nat): nat
    decreases a + b
  {
    if a == 0 && b == 0 then 0 else 2 * Xor(a / 2, b / 2) + (if a % 2 == b % 2 then 0 else 1)
  }

  function Or(a: nat, b: nat): nat
    decreases a + b
  {
    if a == 0 && b == 0 then 0 else 2 * Or(a / 2, b / 2) + (if a % 2 == 1 || b % 2 == 1 then 1 else 0)
  }

  function Shr(x: nat, s: nat): nat {
    if s == 0 then x else Shr(x / 2, s - 1)
  }

  /** The shift to the left, which loses what goes beyond the word. */
  function Shl(x: nat, s: nat): nat {
    (x * Pow2(s)) % TWO64
  }

  lemma XorParts(a: nat, b: nat)
    ensures Xor(a, b) / 2 == Xor(a / 2, b / 2) && Xor(a, b) % 2 == (if a % 2 == b % 2 then 0 else 1)
  {
  }

  lemma {:induction false} XorCancels(a: nat, b: nat)
    ensures Xor(Xor(a, b), b) == a
    decreases a + b
  {
    if a != 0 || b != 0 {
      XorCancels(a / 2, b / 2);
      XorParts(a, b);
      XorParts(Xor(a, b), b);
      hide Xor;
    }
  }

  lemma {:induction false} XorZero(a: nat)
    ensures Xor(a, 0) == a
  {
    if a != 0 {
      XorZero(a / 2);
    }
  }

  lemma {:induction false} ShrXor(a: nat, b: nat, s: nat)
    ensures Shr(Xor(a, b), s) == Xor(Shr(a, s), Shr(b, s))
    decreases s
  {
    if s > 0 {
      ShrXor(a / 2, b / 2, s - 1);
      XorParts(a, b);
      hide Xor;
    }
  }

  lemma {:induction false} ShrShr(x: nat, s: nat, t: nat)
    ensures Shr(Shr(x, s), t) == Shr(x, s + t)
    decreases s
  {
    if s > 0 {
      ShrShr(x / 2, s - 1, t);
    }
  }

  lemma {:induction false} ShrAll(x: nat, s: nat)
    requires x < Pow2(s)
    ensures Shr(x, s) == 0
    decreases s
  {
    if s > 0 {
      ShrAll(x / 2, s - 1);
    }
  }

  lemma {:induction false} BitsBound(a: nat, b: nat, n: nat)
    requires a < Pow2(n) && b < Pow2(n)
    ensures Xor(a, b) < Pow2(n) && b <= Or(a, b) < Pow2(n)
    decreases n
  {
    if n > 0 {
      BitsBound(a / 2, b / 2, n - 1);
    }
  }

  lemma {:induction false} ShrBound(x: nat, s: nat)
    ensures Shr(x, s) <= x
    decreases s
  {
    if s > 0 {
      ShrBound(x / 2, s - 1);
    }
  }

  lemma {:induction false} Pow2Add(m: nat, n: nat)
    ensures Pow2(m + n) == Pow2(m) * Pow2(n)
  {
    if m > 0 {
      Pow2Add(m - 1, n);
      assert 2 * Pow2(m - 1) * Pow2(n) == 2 * (Pow2(m - 1) * Pow2(n));
    }
  }

  lemma {:induction false} Pow2Monotone(m: nat, n: nat)
    requires m <= n
    ensures Pow2(m) <= Pow2(n)
  {
    if m < n {
      Pow2Monotone(m, n - 1);
    }
  }

  lemma Pow2Word()
    ensures Pow2(63) == TWO63 && Pow2(64) == TWO64
  {
    assert Pow2(8) == 256;
    Pow2Add(8, 8);
    Pow2Add(16, 16);
    Pow2Add(32, 31);
    Pow2Add(16, 15);
    assert Pow2(7) == 128;
    Pow2Add(8, 7);
  }

  /** A factor with an inverse modulo 2^64 can be cancelled. */
  lemma CancelFactor(d: int, factor: int, inverse: int, t: int, w: int)
    requires d * factor == w * TWO64 && factor * inverse == t * TWO64 + 1
    ensures d == (w * inverse - d * t) * TWO64
  {
    calc {
      w * inverse * TWO64;
      w * TWO64 * inverse;
      d * factor * inverse;
      d * (factor * inverse);
      d * (t * TWO64 + 1);
      d * t * TWO64 + d;
    }
  }

  lemma {:induction false} XorSame(a: nat, b: nat)
    requires Xor(a, b) == 0
    ensures a == b
    decreases a + b
  {
    if a != 0 || b != 0 {
      XorSame(a / 2, b / 2);
    }
  }

  lemma {:induction false} ShrSmaller(x: nat, s: nat)
    requires 0 < x && 0 < s
    ensures Shr(x, s) < x
  {
    ShrBound(x / 2, s - 1);
  }

  /** Bit i of a word. */
  predicate Bit(x: nat, i: nat) { Shr(x, i) % 2 == 1 }

  lemma OrParts(a: nat, b: nat)
    ensures Or(a, b) / 2 == Or(a / 2, b / 2) && Or(a, b) % 2 == (if a % 2 == 1 || b % 2 == 1 then 1 else 0)
  {
  }

  /** The bitwise operations work bit by bit. */
  lemma {:induction false} BitwiseOps(a: nat, b: nat, i: nat)
    ensures Bit(Or(a, b), i) <==> Bit(a, i) || Bit(b, i)
    ensures Bit(Xor(a, b), i) <==> Bit(a, i) != Bit(b, i)
    decreases i
  {
    OrParts(a, b);
    XorParts(a, b);
    hide Or, Xor;
    if i > 0 {
      BitwiseOps(a / 2, b / 2, i - 1);
    }
  }

  /** Shifting to the right divides by a power of two. */
  lemma {:induction false} ShrDivides(x: nat, s: nat)
    ensures Shr(x, s) == x / Pow2(s)
    decreases s
  {
    if s > 0 {
      ShrDivides(x / 2, s - 1);
      HalveDivides(x, Pow2(s - 1));
      hide Shr;
    }
  }

  lemma HalveDivides(x: nat, p: nat)
    requires p >= 1
    ensures x / 2 / p == x / (2 * p)
  {
    var q, r := x / 2 / p, x / 2 % p;
    assert x / 2 == q * p + r;
    assert q * (2 * p) == 2 * (q * p);
    DivisionIs(x, 2 * p, q, 2 * r + x % 2);
  }

  /** Setting the top bit of a word of n + 1 bits adds it if it is not there. */
  lemma {:induction false} OrTop(a: nat, n: nat)
    requires a < 2 * Pow2(n)
    ensures Or(a, Pow2(n)) == if a < Pow2(n) then a + Pow2(n) else a
  {
    OrParts(a, Pow2(n));
    if n > 0 {
      OrTop(a / 2, n - 1);
    } else {
      OrZero();
    }
    hide Or;
  }

  lemma OrZero()
    ensures Or(0, 0) == 0
  {
  }
}
