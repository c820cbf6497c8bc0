/**
 Python's arbitrary-precision integers, seen as two's-complement bit strings of
 unbounded width. The bitwise operators are defined digit by digit, and one lemma per
 operator says what it does to every bit, so that masking is something to prove rather
 than something a fixed machine width grants for free.
 */
module PyInts {

  /** Bit `i` of `a`; a negative integer has infinitely many leading ones. */
  predicate Bit(a: int, i: nat)
    decreases i
  {
    if i == 0 then a % 2 == 1 else Bit(a / 2, i - 1)
  }

  /** `a << s` */
  function Shl(a: int, s: nat): int {
    if s == 0 then a else 2 * Shl(a, s - 1)
  }

  /** `a >> s`, which rounds toward minus infinity. */
  function Shr(a: int, s: nat): int
    decreases s
  {
    if s == 0 then a else Shr(a / 2, s - 1)
  }

  /** `~a` */
  function Not(a: int): int {
    -a - 1
  }

  function Magnitude(a: int): nat {
    if a < 0 then -a - 1 else a
  }

  function Digit(b: bool): int {
    if b then 1 else 0
  }

  /** `a ^ b` */
  function Xor(a: int, b: int): int
    decreases Magnitude(a) + Magnitude(b)
  {
    if Magnitude(a) == 0 && Magnitude(b) == 0 then
      if a == b then 0 else -1
    else
      2 * Xor(a / 2, b / 2) + Digit((a % 2 == 1) != (b % 2 == 1))
  }

  /** `a & b` */
  function And(a: int, b: int): int
    decreases Magnitude(a) + Magnitude(b)
  {
    if Magnitude(a) == 0 && Magnitude(b) == 0 then
      if a == -1 && b == -1 then -1 else 0
    else
      2 * And(a / 2, b / 2) + Digit(a % 2 == 1 && b % 2 == 1)
  }

  /** `a | b`, by De Morgan. */
  function Or(a: int, b: int): int {
    Not(And(Not(a), Not(b)))
  }

  // ----- what each operator does to each bit

  lemma XorHalves(a: int, b: int)
    requires Magnitude(a) != 0 || Magnitude(b) != 0
    ensures Xor(a, b) / 2 == Xor(a / 2, b / 2)
    ensures (Xor(a, b) % 2 == 1) == ((a % 2 == 1) != (b % 2 == 1))
  {
    HalfOfDouble(Xor(a / 2, b / 2), (a % 2 == 1) != (b % 2 == 1));
  }

  lemma AndHalves(a: int, b: int)
    requires Magnitude(a) != 0 || Magnitude(b) != 0
    ensures And(a, b) / 2 == And(a / 2, b / 2)
    ensures (And(a, b) % 2 == 1) == (a % 2 == 1 && b % 2 == 1)
  {
    HalfOfDouble(And(a / 2, b / 2), a % 2 == 1 && b % 2 == 1);
  }

  lemma HalfOfDouble(h: int, b: bool)
    ensures (2 * h + Digit(b)) / 2 == h && ((2 * h + Digit(b)) % 2 == 1) == b
  {
  }

  lemma {:induction false} BitOfXor(a: int, b: int, i: nat)
    ensures Bit(Xor(a, b), i) == (Bit(a, i) != Bit(b, i))
    decreases i
  {
    if Magnitude(a) == 0 && Magnitude(b) == 0 {
      BitOfSign(a, i);
      BitOfSign(b, i);
      BitOfSign(Xor(a, b), i);
    } else {
      hide Xor;
      XorHalves(a, b);
      if i > 0 {
        BitOfXor(a / 2, b / 2, i - 1);
      }
    }
  }

  lemma {:induction false} BitOfAnd(a: int, b: int, i: nat)
    ensures Bit(And(a, b), i) == (Bit(a, i) && Bit(b, i))
    decreases i
  {
    if Magnitude(a) == 0 && Magnitude(b) == 0 {
      BitOfSign(a, i);
      BitOfSign(b, i);
      BitOfSign(And(a, b), i);
    } else {
      hide And;
      AndHalves(a, b);
      if i > 0 {
        BitOfAnd(a / 2, b / 2, i - 1);
      }
    }
  }

  /** Zero has no bit set and minus one has all of them. */
  lemma {:induction false} BitOfSign(a: int, i: nat)
    requires Magnitude(a) == 0
    ensures Bit(a, i) == (a == -1)
    decreases i
  {
    if i > 0 {
      assert a / 2 == a;
      BitOfSign(a, i - 1);
    }
  }

  lemma {:induction false} BitOfNot(a: int, i: nat)
    ensures Bit(Not(a), i) == !Bit(a, i)
    decreases i
  {
    if i > 0 {
      assert Not(a) / 2 == Not(a / 2);
      BitOfNot(a / 2, i - 1);
    }
  }

  lemma BitOfOr(a: int, b: int, i: nat)
    ensures Bit(Or(a, b), i) == (Bit(a, i) || Bit(b, i))
  {
    BitOfNot(a, i);
    BitOfNot(b, i);
    BitOfAnd(Not(a), Not(b), i);
    BitOfNot(And(Not(a), Not(b)), i);
  }

  lemma {:induction false} BitOfShl(a: int, s: nat, i: nat)
    ensures Bit(Shl(a, s), i) == (s <= i && Bit(a, i - s))
    decreases s
  {
    if s > 0 && i > 0 {
      assert Shl(a, s) / 2 == Shl(a, s - 1);
      BitOfShl(a, s - 1, i - 1);
    }
  }

  lemma {:induction false} BitOfShr(a: int, s: nat, i: nat)
    ensures Bit(Shr(a, s), i) == Bit(a, i + s)
    decreases s
  {
    if s > 0 {
      BitOfShr(a / 2, s - 1, i);
    }
  }

  // ----- ranges

  /** `a` is a non-negative integer of at most `n` bits. */
  predicate Fits(a: int, n: nat) {
    0 <= a < Shl(1, n)
  }

  /** `(1 << n) - 1` */
  function Ones(n: nat): int {
    Shl(1, n) - 1
  }

  lemma {:induction false} BitOfOnes(n: nat, i: nat)
    ensures Bit(Ones(n), i) == (i < n)
    decreases n
  {
    if n == 0 {
      BitOfSign(0, i);
    } else if i > 0 {
      assert Ones(n) / 2 == Ones(n - 1);
      BitOfOnes(n - 1, i - 1);
    }
  }

  /** A number that fits in `n` bits has no bit at or above `n`. */
  lemma {:induction false} NoHighBits(a: int, n: nat, i: nat)
    requires Fits(a, n) && n <= i
    ensures !Bit(a, i)
    decreases n
  {
    if n == 0 {
      BitOfSign(a, i);
    } else {
      NoHighBits(a / 2, n - 1, i - 1);
    }
  }

  /** Masking yields a number that fits, whatever the operand's size or sign. */
  lemma {:induction false} MaskFits(a: int, n: nat)
    ensures Fits(And(a, Ones(n)), n)
    decreases n
  {
    if n == 0 {
      AndZero(a);
    } else {
      MaskFits(a / 2, n - 1);
      assert Ones(n) / 2 == Ones(n - 1);
    }
  }

  lemma {:induction false} AndZero(a: int)
    ensures And(a, 0) == 0
    decreases Magnitude(a)
  {
    if Magnitude(a) != 0 {
      AndZero(a / 2);
    }
  }

  /** Numbers that fit in `n` bits and agree on those bits are equal. */
  lemma {:induction false} SameBits(a: int, b: int, n: nat)
    requires Fits(a, n) && Fits(b, n)
    requires forall i: nat :: i < n ==> Bit(a, i) == Bit(b, i)
    ensures a == b
    decreases n
  {
    if n > 0 {
      assert Bit(a, 0) == Bit(b, 0);
      forall i: nat | i < n - 1
        ensures Bit(a / 2, i) == Bit(b / 2, i)
      {
        assert Bit(a, i + 1) == Bit(b, i + 1);
      }
      SameBits(a / 2, b / 2, n - 1);
    }
  }
}
