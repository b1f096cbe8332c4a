/** C's bitwise `&`, `|` and `^` on `int`, defined on unbounded integers in
    two's complement: a non-negative number has infinitely many leading 0
    bits, a negative one infinitely many leading 1 bits. They are defined
    bit by bit, as C's operators act on 32-bit values, but their results
    are not truncated to 32 bits. */
module Bits {

  /** Distance from the two fixed points 0 and -1 of halving. */
  function Mag(x: int): nat {
    if x >= 0 then x else -x - 1
  }

  /** The two integers whose bits are all equal. */
  predicate IsSign(x: int) {
    x == 0 || x == -1
  }

  /** Halving brings every other integer strictly closer to 0 or -1. */
  lemma HalfShrinks(x: int)
    ensures Mag(x / 2) <= Mag(x)
    ensures !IsSign(x) ==> Mag(x / 2) < Mag(x)
  {
  }

  /** Bit `i` of `x` in two's complement (Euclidean `/` and `%` by 2 are
      the arithmetic shift and the low bit). */
  function Bit(x: int, i: nat): (b: int)
    ensures b == 0 || b == 1
    decreases i
  {
    if i == 0 then x % 2 else Bit(x / 2, i - 1)
  }

  /** Bitwise and. */
  function And(a: int, b: int): int
    decreases Mag(a) + Mag(b)
  {
    if IsSign(a) && IsSign(b) then (if a == -1 && b == -1 then -1 else 0)
    else
      HalfShrinks(a); HalfShrinks(b);
      2 * And(a / 2, b / 2) + (a % 2) * (b % 2)
  }

  /** Bitwise inclusive or. */
  function Or(a: int, b: int): int
    decreases Mag(a) + Mag(b)
  {
    if IsSign(a) && IsSign(b) then (if a == -1 || b == -1 then -1 else 0)
    else
      HalfShrinks(a); HalfShrinks(b);
      2 * Or(a / 2, b / 2) + (if a % 2 == 1 || b % 2 == 1 then 1 else 0)
  }

  /** Bitwise exclusive or. */
  function Xor(a: int, b: int): int
    decreases Mag(a) + Mag(b)
  {
    if IsSign(a) && IsSign(b) then (if a == b then 0 else -1)
    else
      HalfShrinks(a); HalfShrinks(b);
      2 * Xor(a / 2, b / 2) + (a % 2 + b % 2) % 2
  }

  lemma BitOfSign(x: int, i: nat)
    requires IsSign(x)
    ensures Bit(x, i) == (if x == -1 then 1 else 0)
  {
    if i > 0 {
      BitOfSign(x / 2, i - 1);
    }
  }

  /** Appending a low bit `c` to `q` shifts every bit of `q` up by one. */
  lemma BitOfAppend(q: int, c: int, i: nat)
    requires c == 0 || c == 1
    ensures Bit(2 * q + c, i) == if i == 0 then c else Bit(q, i - 1)
  {
    assert (2 * q + c) / 2 == q;
    assert (2 * q + c) % 2 == c;
  }

  /** Bit `i` of `a & b` is set exactly when bit `i` is set in both. */
  lemma {:induction false} BitAnd(a: int, b: int, i: nat)
    ensures Bit(And(a, b), i) == (if Bit(a, i) == 1 && Bit(b, i) == 1 then 1 else 0)
    decreases i
  {
    if IsSign(a) && IsSign(b) {
      BitOfSign(a, i); BitOfSign(b, i); BitOfSign(And(a, b), i);
    } else {
      BitOfAppend(And(a / 2, b / 2), (a % 2) * (b % 2), i);
      if i > 0 {
        BitAnd(a / 2, b / 2, i - 1);
      }
    }
  }

  /** Bit `i` of `a | b` is set exactly when bit `i` is set in either. */
  lemma {:induction false} BitOr(a: int, b: int, i: nat)
    ensures Bit(Or(a, b), i) == (if Bit(a, i) == 1 || Bit(b, i) == 1 then 1 else 0)
    decreases i
  {
    if IsSign(a) && IsSign(b) {
      BitOfSign(a, i); BitOfSign(b, i); BitOfSign(Or(a, b), i);
    } else {
      BitOfAppend(Or(a / 2, b / 2), if a % 2 == 1 || b % 2 == 1 then 1 else 0, i);
      if i > 0 {
        BitOr(a / 2, b / 2, i - 1);
      }
    }
  }

  /** Bit `i` of `a ^ b` is set exactly when the two bits differ. */
  lemma {:induction false} BitXor(a: int, b: int, i: nat)
    ensures Bit(Xor(a, b), i) == (if Bit(a, i) != Bit(b, i) then 1 else 0)
    decreases i
  {
    if IsSign(a) && IsSign(b) {
      BitOfSign(a, i); BitOfSign(b, i); BitOfSign(Xor(a, b), i);
    } else {
      BitOfAppend(Xor(a / 2, b / 2), (a % 2 + b % 2) % 2, i);
      if i > 0 {
        BitXor(a / 2, b / 2, i - 1);
      }
    }
  }

  /** Two integers with the same bits are equal, so the three lemmas above
      determine `And`, `Or` and `Xor` completely. */
  lemma {:induction false} BitsDetermine(x: int, y: int)
    requires forall i: nat :: Bit(x, i) == Bit(y, i)
    ensures x == y
    decreases Mag(x) + Mag(y)
  {
    assert Bit(x, 0) == Bit(y, 0);
    if IsSign(x) && IsSign(y) {
    } else {
      HalfShrinks(x); HalfShrinks(y);
      forall i: nat ensures Bit(x / 2, i) == Bit(y / 2, i) {
        assert Bit(x, i + 1) == Bit(y, i + 1);
      }
      BitsDetermine(x / 2, y / 2);
    }
  }
}
