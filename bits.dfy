/**
 * Python's bitwise operators on non-negative integers, defined digit by digit
 * in base 2, with the facts about single bits that the register decoders need.
 */
module Bits {

  function Pow2(k: nat): (r: nat)
    ensures r >= 1
  {
    if k == 0 then 1 else 2 * Pow2(k - 1)
  }

  /** `(a >> k) & 1` */
  function Bit(a: nat, k: nat): (b: nat)
    ensures b <= 1
  {
    if k == 0 then a % 2 else Bit(a / 2, k - 1)
  }

  /** `a & b` */
  function And(a: nat, b: nat): nat
    decreases a
  {
    if a == 0 || b == 0 then 0 else 2 * And(a / 2, b / 2) + (a % 2) * (b % 2)
  }

  /** `a | b` */
  function Or(a: nat, b: nat): nat
    decreases a + b
  {
    if a == 0 then b
    else if b == 0 then a
    else 2 * Or(a / 2, b / 2) + (if a % 2 == 1 || b % 2 == 1 then 1 else 0)
  }

  /** `a & ~b`: for b >= 0, `~b == -b - 1` has exactly the bits of b flipped, and infinitely many ones above */
  function AndNot(a: nat, b: nat): nat
    decreases a
  {
    if a == 0 then 0 else 2 * AndNot(a / 2, b / 2) + (if a % 2 == 1 && b % 2 == 0 then 1 else 0)
  }

  lemma {:induction false} BitOfZero(k: nat)
    ensures Bit(0, k) == 0
  {
    if k > 0 {
      BitOfZero(k - 1);
    }
  }

  /** A single-bit mask has exactly one bit set. */
  lemma {:induction false} BitOfPow2(j: nat, k: nat)
    ensures Bit(Pow2(j), k) == if j == k then 1 else 0
  {
    if j > 0 && k > 0 {
      BitOfPow2(j - 1, k - 1);
    } else if j > 0 {
      assert Pow2(j) % 2 == 0;
    } else if k > 0 {
      BitOfZero(k - 1);
    }
  }

  /** Halving undoes appending a low bit. */
  lemma HalfOf(x: nat, r: nat)
    requires r <= 1
    ensures (2 * x + r) / 2 == x && (2 * x + r) % 2 == r
  {
  }

  lemma {:induction false} BitOfAnd(a: nat, b: nat, k: nat)
    ensures Bit(And(a, b), k) == if Bit(a, k) == 1 && Bit(b, k) == 1 then 1 else 0
    decreases k
  {
    if a == 0 || b == 0 {
      BitOfZero(k);
    } else {
      var low := if a % 2 == 1 && b % 2 == 1 then 1 else 0;
      assert (a % 2) * (b % 2) == low;
      HalfOf(And(a / 2, b / 2), low);
      if k > 0 {
        BitOfAnd(a / 2, b / 2, k - 1);
      }
    }
  }

  lemma {:induction false} BitOfOr(a: nat, b: nat, k: nat)
    ensures Bit(Or(a, b), k) == if Bit(a, k) == 1 || Bit(b, k) == 1 then 1 else 0
    decreases k
  {
    if a == 0 || b == 0 {
      BitOfZero(k);
    } else {
      HalfOf(Or(a / 2, b / 2), if a % 2 == 1 || b % 2 == 1 then 1 else 0);
      if k > 0 {
        BitOfOr(a / 2, b / 2, k - 1);
      }
    }
  }

  lemma {:induction false} BitOfAndNot(a: nat, b: nat, k: nat)
    ensures Bit(AndNot(a, b), k) == if Bit(a, k) == 1 && Bit(b, k) == 0 then 1 else 0
    decreases k
  {
    if a == 0 {
      BitOfZero(k);
    } else {
      HalfOf(AndNot(a / 2, b / 2), if a % 2 == 1 && b % 2 == 0 then 1 else 0);
      if k > 0 {
        BitOfAndNot(a / 2, b / 2, k - 1);
      }
    }
  }

  /** `a & (1 << k)` is zero exactly when bit k of a is clear; otherwise it is the mask itself. */
  lemma {:induction false} AndWithPow2(a: nat, k: nat)
    ensures And(a, Pow2(k)) == if Bit(a, k) == 1 then Pow2(k) else 0
    decreases k
  {
    if a == 0 {
      BitOfZero(k);
    } else if k == 0 {
      assert And(a / 2, 0) == 0;
    } else {
      var half := Pow2(k - 1);
      assert Pow2(k) == 2 * half;
      HalfOf(half, 0);
      assert And(a, Pow2(k)) == 2 * And(a / 2, half);
      AndWithPow2(a / 2, k - 1);
    }
  }

  /** Two numbers whose bits all agree are equal. */
  lemma {:induction false} BitsDetermineValue(a: nat, b: nat)
    requires forall k: nat :: Bit(a, k) == Bit(b, k)
    ensures a == b
    decreases a + b
  {
    assert a % 2 == Bit(a, 0) == Bit(b, 0) == b % 2;
    if a != 0 || b != 0 {
      forall k: nat ensures Bit(a / 2, k) == Bit(b / 2, k) {
        assert Bit(a, k + 1) == Bit(b, k + 1);
      }
      if a / 2 + b / 2 < a + b {
        BitsDetermineValue(a / 2, b / 2);
      }
    }
  }
}
