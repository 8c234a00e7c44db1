/** Python's unbounded-integer bit operations used by the evaluator, written out on `nat`:
    `x ^ y`, `x >> i`, `(x >> i) & 0b11` and `bin(x).count('1')`. */
module Bits {

  /** 2 to the power n. */
  function Pow2(n: nat): (r: nat)
    ensures r >= 1
  {
    if n == 0 then 1 else 2 * Pow2(n - 1)
  }

  /** Python's `x >> i` on a non-negative integer. */
  function Shr(x: nat, i: nat): (r: nat)
    ensures r <= x
  {
    if i == 0 then x else Shr(x / 2, i - 1)
  }

  /** Bit i of x, as 0 or 1. */
  function Bit(x: nat, i: nat): nat
  {
    Shr(x, i) % 2
  }

  /** Python's `a ^ b` on non-negative integers, bit by bit from the least significant end. */
  function Xor(a: nat, b: nat): (r: nat)
    ensures r <= a + b
    ensures a == 0 ==> r == b
    decreases a + b
  {
    if a == 0 && b == 0 then 0
    else 2 * Xor(a / 2, b / 2) + (if a % 2 == b % 2 then 0 else 1)
  }

  /** Python's `bin(x).count('1')` on a non-negative integer. */
  function PopCount(x: nat): (r: nat)
    ensures r <= x
  {
    if x == 0 then 0 else x % 2 + PopCount(x / 2)
  }

  /** The number of set bits among positions 0 .. n-1 of x. */
  function LowOnes(x: nat, n: nat): nat
  {
    if n == 0 then 0 else LowOnes(x, n - 1) + Bit(x, n - 1)
  }

  /** `((x >> i) & 0b11) == 0b11`: bits i and i+1 of x are both set. */
  predicate PairAt(x: nat, i: nat)
  {
    Shr(x, i) % 4 == 3
  }

  /** The number of i in 0 .. n-1 with bits i and i+1 of x both set. */
  function AdjacentPairs(x: nat, n: nat): nat
  {
    if n == 0 then 0 else AdjacentPairs(x, n - 1) + (if PairAt(x, n - 1) then 1 else 0)
  }

  // ---------------------------------------------------------------------------
  // Shifts

  lemma {:induction false} ShrSucc(x: nat, i: nat)
    ensures Shr(x, i + 1) == Shr(x, i) / 2
  {
    if i > 0 {
      ShrSucc(x / 2, i - 1);
    }
  }

  lemma {:induction false} ShrZero(i: nat)
    ensures Shr(0, i) == 0
  {
    if i > 0 {
      ShrZero(i - 1);
    }
  }

  /** A pair at position i is exactly "bit i and bit i+1 are set". */
  lemma PairAtBits(x: nat, i: nat)
    ensures PairAt(x, i) <==> Bit(x, i) == 1 && Bit(x, i + 1) == 1
  {
    ShrSucc(x, i);
  }

  /** Halving x plus a multiple of 2^m (m >= 1) halves the multiple exactly. */
  lemma HalfAddHigh(x: nat, k: nat, m: nat)
    requires m >= 1
    ensures (x + Pow2(m) * k) / 2 == x / 2 + Pow2(m - 1) * k
  {
    var c := Pow2(m - 1) * k;
    calc {
      Pow2(m) * k;
      (2 * Pow2(m - 1)) * k;
      { MulAssoc(2, Pow2(m - 1), k); }
      2 * c;
    }
  }

  lemma MulAssoc(a: int, b: int, c: int)
    ensures (a * b) * c == a * (b * c)
  {
  }

  /** Adding a multiple of 2^j (j >= 2) leaves the low two bits alone. */
  lemma LowTwoBitsAddHigh(y: nat, k: nat, j: nat)
    requires j >= 2
    ensures (y + Pow2(j) * k) % 4 == y % 4
  {
    var c := Pow2(j - 2) * k;
    calc {
      Pow2(j) * k;
      (4 * Pow2(j - 2)) * k;
      { MulAssoc(4, Pow2(j - 2), k); }
      4 * c;
    }
  }

  /** Adding a multiple of 2^m changes x >> i by a multiple of 2^(m-i) when i <= m. */
  lemma {:induction false} ShrAddHigh(x: nat, k: nat, m: nat, i: nat)
    requires i <= m
    ensures Shr(x + Pow2(m) * k, i) == Shr(x, i) + Pow2(m - i) * k
  {
    if i > 0 {
      var high := Pow2(m) * k;
      var half := Pow2(m - 1) * k;
      HalfAddHigh(x, k, m);
      assert (x + high) / 2 == x / 2 + half;
      ShrAddHigh(x / 2, k, m - 1, i - 1);
      assert m - 1 - (i - 1) == m - i;
      assert Shr(x + high, i) == Shr(x / 2 + half, i - 1);
    }
  }

  // ---------------------------------------------------------------------------
  // Xor

  lemma {:induction false} XorComm(a: nat, b: nat)
    ensures Xor(a, b) == Xor(b, a)
    decreases a + b
  {
    if a != 0 || b != 0 {
      XorComm(a / 2, b / 2);
    }
  }

  /** `a ^ b == 0` exactly when a == b. */
  lemma {:induction false} XorZeroIff(a: nat, b: nat)
    ensures Xor(a, b) == 0 <==> a == b
    decreases a + b
  {
    if a != 0 || b != 0 {
      XorZeroIff(a / 2, b / 2);
    }
  }

  /** Two n-bit numbers have an n-bit xor. */
  lemma {:induction false} XorBound(a: nat, b: nat, n: nat)
    requires a < Pow2(n) && b < Pow2(n)
    ensures Xor(a, b) < Pow2(n)
    decreases a + b
  {
    if (a != 0 || b != 0) && n > 0 {
      XorBound(a / 2, b / 2, n - 1);
    }
  }

  /** Xor with an all-ones n-bit mask complements every bit of an n-bit number. */
  lemma {:induction false} XorAllOnes(a: nat, n: nat)
    requires a < Pow2(n)
    ensures Xor(a, Pow2(n) - 1) == Pow2(n) - 1 - a
    decreases n
  {
    if n > 0 {
      XorAllOnes(a / 2, n - 1);
    }
  }

  // ---------------------------------------------------------------------------
  // Population count

  lemma {:induction false} PopCountZeroIff(x: nat)
    ensures PopCount(x) == 0 <==> x == 0
  {
    if x > 0 {
      PopCountZeroIff(x / 2);
    }
  }

  /** Appending one bit below x: `bin(2 * x + b)` has the set bits of x plus b. */
  lemma PopCountAppendBit(x: nat, b: nat)
    requires b < 2
    ensures PopCount(2 * x + b) == PopCount(x) + b
  {
  }

  /** An n-bit number has at most n set bits. */
  lemma {:induction false} PopCountBound(x: nat, n: nat)
    requires x < Pow2(n)
    ensures PopCount(x) <= n
  {
    if x > 0 {
      PopCountBound(x / 2, n - 1);
    }
  }

  /** The only n-bit number with n set bits is 2^n - 1 (all ones). */
  lemma {:induction false} PopCountFull(x: nat, n: nat)
    requires x < Pow2(n) && PopCount(x) == n
    ensures x == Pow2(n) - 1
  {
    if n > 0 {
      PopCountBound(x / 2, n - 1);
      PopCountFull(x / 2, n - 1);
    }
  }

  /** Counting the low n bits from the bottom up peels off bit 0 first. */
  lemma {:induction false} LowOnesSplit(x: nat, n: nat)
    requires n >= 1
    ensures LowOnes(x, n) == x % 2 + LowOnes(x / 2, n - 1)
  {
    if n > 1 {
      LowOnesSplit(x, n - 1);
    }
  }

  /** For an n-bit number, the set bits below n are all its set bits. */
  lemma {:induction false} PopCountLowOnes(x: nat, n: nat)
    requires x < Pow2(n)
    ensures PopCount(x) == LowOnes(x, n)
  {
    if n > 0 {
      LowOnesSplit(x, n);
      PopCountLowOnes(x / 2, n - 1);
    }
  }

  lemma {:induction false} LowOnesBound(x: nat, n: nat)
    ensures LowOnes(x, n) <= n
  {
    if n > 0 {
      LowOnesBound(x, n - 1);
    }
  }

  // ---------------------------------------------------------------------------
  // Adjacent pairs

  lemma {:induction false} AdjacentPairsBound(x: nat, n: nat)
    ensures AdjacentPairs(x, n) <= n
  {
    if n > 0 {
      AdjacentPairsBound(x, n - 1);
    }
  }

  /** No set bits, no adjacent pairs. */
  lemma {:induction false} AdjacentPairsOfZero(n: nat)
    ensures AdjacentPairs(0, n) == 0
  {
    if n > 0 {
      ShrZero(n - 1);
      AdjacentPairsOfZero(n - 1);
    }
  }

  /** Among the low n+1 bits, the pairs are at most one fewer than the set bits,
      and there are none when no bit is set. */
  lemma {:induction false} AdjacentPairsBelowOnes(x: nat, n: nat)
    ensures LowOnes(x, n + 1) == 0 ==> AdjacentPairs(x, n) == 0
    ensures LowOnes(x, n + 1) >= 1 ==> AdjacentPairs(x, n) <= LowOnes(x, n + 1) - 1
  {
    if n > 0 {
      AdjacentPairsBelowOnes(x, n - 1);
      PairAtBits(x, n - 1);
    }
  }

  /** x >> i of an all-ones m-bit number is the all-ones (m-i)-bit number. */
  lemma {:induction false} ShrAllOnes(m: nat, i: nat)
    requires i <= m
    ensures Shr(Pow2(m) - 1, i) == Pow2(m - i) - 1
  {
    if i > 0 {
      assert (Pow2(m) - 1) / 2 == Pow2(m - 1) - 1;
      ShrAllOnes(m - 1, i - 1);
    }
  }

  /** An all-ones number of at least two bits ends in 0b11. */
  lemma AllOnesLowTwoBits(j: nat)
    requires j >= 2
    ensures (Pow2(j) - 1) % 4 == 3
  {
    assert Pow2(j) == 2 * Pow2(j - 1) && Pow2(j - 1) == 2 * Pow2(j - 2);
  }

  /** In an all-ones m-bit number every pair below bit m-1 is set. */
  lemma {:induction false} AdjacentPairsAllOnes(m: nat, n: nat)
    requires n < m
    ensures AdjacentPairs(Pow2(m) - 1, n) == n
  {
    if n > 0 {
      ShrAllOnes(m, n - 1);
      AllOnesLowTwoBits(m - (n - 1));
      AdjacentPairsAllOnes(m, n - 1);
    }
  }

  /** Only bits 0 .. n of x are inspected: adding any multiple of 2^m with m > n leaves the
      pair count unchanged. */
  lemma {:induction false} AdjacentPairsIgnoreHighBits(x: nat, k: nat, m: nat, n: nat)
    requires n < m
    ensures AdjacentPairs(x + Pow2(m) * k, n) == AdjacentPairs(x, n)
  {
    if n > 0 {
      ShrAddHigh(x, k, m, n - 1);
      LowTwoBitsAddHigh(Shr(x, n - 1), k, m - (n - 1));
      AdjacentPairsIgnoreHighBits(x, k, m, n - 1);
    }
  }
}
