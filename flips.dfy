/** The per-word part of the bit-error evaluator: how many bits of a read-back word differ
    from the written pattern, and how many of those flipped bits sit next to each other. */
module Flips {
  import opened Bits

  /** An observed 16-bit value. */
  type Word = w: nat | w < 0x10000

  /** The pattern written to every word before the refresh interval elapsed. */
  const PATTERN: Word := 0xFFFF

  /** Width of a memory word in bits. */
  const WORD_BITS: nat := 16

  /** One row of a dataset: an address and the value read back there. */
  datatype Measurement = Measurement(addr: nat, value: Word)

  lemma WordBound()
    ensures Pow2(WORD_BITS) == 0x10000 && PATTERN == Pow2(WORD_BITS) - 1
  {
    assert Pow2(4) == 16;
    assert Pow2(8) == 256 by { assert Pow2(8) == 16 * Pow2(4); }
    assert Pow2(16) == 0x10000;
  }

  /** `bin(val ^ PATTERN).count('1')`: the number of flipped bits of one word. */
  function FlipCount(val: Word): (r: nat)
    ensures r <= WORD_BITS
    ensures r == 0 <==> val == PATTERN
  {
    WordBound();
    XorBound(val, PATTERN, WORD_BITS);
    PopCountBound(Xor(val, PATTERN), WORD_BITS);
    XorZeroIff(val, PATTERN);
    PopCountZeroIff(Xor(val, PATTERN));
    PopCount(Xor(val, PATTERN))
  }

  /** Most scripts write `PATTERN ^ val`; it counts the same bits as `val ^ PATTERN`. */
  lemma FlipCountOperandOrder(val: Word)
    ensures PopCount(Xor(PATTERN, val)) == FlipCount(val)
  {
    XorComm(PATTERN, val);
  }

  /** Against the all-ones pattern a word's flip count is the number of its zero bits,
      i.e. 16 minus its own set bits. */
  lemma FlipCountIsZeroBits(val: Word)
    ensures FlipCount(val) == WORD_BITS - PopCount(val)
  {
    WordBound();
    XorAllOnes(val, WORD_BITS);
    ComplementPopCount(val, WORD_BITS);
  }

  lemma {:induction false} ComplementPopCount(x: nat, n: nat)
    requires x < Pow2(n)
    ensures PopCount(Pow2(n) - 1 - x) + PopCount(x) == n
  {
    if n > 0 {
      assert (Pow2(n) - 1 - x) / 2 == Pow2(n - 1) - 1 - x / 2;
      assert PopCount(Pow2(n) - 1 - x) == (Pow2(n) - 1 - x) % 2 + PopCount((Pow2(n) - 1 - x) / 2);
      ComplementPopCount(x / 2, n - 1);
    }
  }

  /** The worked values: nothing flipped in 0xFFFF, everything in 0x0, eleven bits in 0xBA. */
  lemma FlipCountExamples()
    ensures FlipCount(0xFFFF) == 0
    ensures FlipCount(0x0) == 16
    ensures FlipCount(0xBA) == 11
  {
    FlipCountFullIff(0x0);
    OnesOfBA(0xBA);
    FlipCountIsZeroBits(0xBA);
  }

  /** 0xBA = 0b1011_1010 has five set bits, counted by appending its bits from the top. */
  lemma OnesOfBA(v: nat)
    requires v == 0xBA
    ensures PopCount(v) == 5
  {
    PopCountAppendBit(0x0, 1);
    PopCountAppendBit(0x1, 0);
    PopCountAppendBit(0x2, 1);
    PopCountAppendBit(0x5, 1);
    PopCountAppendBit(0xB, 1);
    PopCountAppendBit(0x17, 0);
    PopCountAppendBit(0x2E, 1);
    PopCountAppendBit(0x5D, 0);
  }

  /** All 16 bits flipped exactly when the word read back as 0. */
  lemma FlipCountFullIff(val: Word)
    ensures FlipCount(val) == WORD_BITS <==> val == 0
  {
    FlipCountIsZeroBits(val);
    PopCountZeroIff(val);
  }

  /** `range(bits - 1)`: how many adjacent pairs a call inspects. */
  function PairsInspected(bits: nat): nat
  {
    if bits >= 1 then bits - 1 else 0
  }

  /** `count_adjacent_bit_flips(val, pattern, bits)`: walks i over 0 .. bits-2 and counts the
      positions where bits i and i+1 of `val ^ pattern` are both set. */
  method CountAdjacentBitFlips(val: nat, pattern: nat, bits: nat) returns (count: nat)
    ensures count == AdjacentPairs(Xor(val, pattern), PairsInspected(bits))
    ensures count <= PairsInspected(bits)
  {
    var flipped := Xor(val, pattern);
    count := 0;
    var i := 0;
    while i < PairsInspected(bits)
      invariant 0 <= i <= PairsInspected(bits)
      invariant count == AdjacentPairs(flipped, i)
      invariant count <= i
    {
      if Shr(flipped, i) % 4 == 3 {
        count := count + 1;
      }
      i := i + 1;
    }
  }

  /** `count_adjacent_bit_flips(val)` with its defaults `pattern=PATTERN, bits=16`. */
  function AdjacentCount(val: Word): (r: nat)
    ensures r <= WORD_BITS - 1
  {
    AdjacentPairsBound(Xor(val, PATTERN), WORD_BITS - 1);
    AdjacentPairs(Xor(val, PATTERN), WORD_BITS - 1)
  }

  /** Nothing flipped, no adjacent flips. */
  lemma AdjacentCountUnflipped(val: nat, bits: nat)
    ensures AdjacentPairs(Xor(val, val), PairsInspected(bits)) == 0
  {
    XorZeroIff(val, val);
    AdjacentPairsOfZero(PairsInspected(bits));
  }

  /** Only bits 0..15 of `val ^ pattern` are inspected with the default width: bits from 16 up
      cannot change the count. */
  lemma AdjacentCountIgnoresHighBits(flipped: nat, k: nat)
    ensures AdjacentPairs(flipped + 0x10000 * k, PairsInspected(WORD_BITS))
         == AdjacentPairs(flipped, PairsInspected(WORD_BITS))
  {
    WordBound();
    AdjacentPairsIgnoreHighBits(flipped, k, WORD_BITS, WORD_BITS - 1);
  }

  /** A word with at least one flip has at most flips - 1 adjacent flips; one with none has none. */
  lemma AdjacentCountBelowFlips(val: Word)
    ensures FlipCount(val) == 0 ==> AdjacentCount(val) == 0
    ensures FlipCount(val) >= 1 ==> AdjacentCount(val) <= FlipCount(val) - 1
  {
    WordBound();
    XorBound(val, PATTERN, WORD_BITS);
    PopCountLowOnes(Xor(val, PATTERN), WORD_BITS);
    AdjacentPairsBelowOnes(Xor(val, PATTERN), WORD_BITS - 1);
  }

  /** The check printed by DUMP1: a word with all 16 bits flipped has all 15 pairs adjacent,
      and conversely 15 adjacent pairs mean all 16 bits flipped. */
  lemma AllFlippedIffAllAdjacent(val: Word)
    ensures FlipCount(val) == WORD_BITS <==> AdjacentCount(val) == WORD_BITS - 1
  {
    WordBound();
    var x := Xor(val, PATTERN);
    XorBound(val, PATTERN, WORD_BITS);
    if FlipCount(val) == WORD_BITS {
      PopCountFull(x, WORD_BITS);
      AdjacentPairsAllOnes(WORD_BITS, WORD_BITS - 1);
    }
    if AdjacentCount(val) == WORD_BITS - 1 {
      AdjacentCountBelowFlips(val);
    }
  }

  /** The check DUMP1 prints for every address: each entry with 16 bit flips has 15 adjacent
      bit flips. */
  lemma FullFlipsAreFullyAdjacent(data: seq<Measurement>)
    ensures forall i :: 0 <= i < |data| && BitFlips(data)[i] == WORD_BITS ==>
              AdjacentFlips(data)[i] == WORD_BITS - 1
  {
    forall i | 0 <= i < |data| && BitFlips(data)[i] == WORD_BITS
      ensures AdjacentFlips(data)[i] == WORD_BITS - 1
    {
      AllFlippedIffAllAdjacent(data[i].value);
    }
  }

  /** Each address occurs at most once in a dataset. */
  predicate DistinctAddrs(data: seq<Measurement>)
  {
    forall i, j :: 0 <= i < j < |data| ==> data[i].addr != data[j].addr
  }

  /** `bit_flips`: one flip count per measurement, in data order. */
  function BitFlips(data: seq<Measurement>): (r: seq<nat>)
    ensures |r| == |data|
    ensures forall i :: 0 <= i < |data| ==> r[i] == FlipCount(data[i].value)
    ensures forall i :: 0 <= i < |r| ==> r[i] <= WORD_BITS
    ensures forall i :: 0 <= i < |r| ==> (r[i] == 0 <==> data[i].value == PATTERN)
  {
    seq(|data|, i requires 0 <= i < |data| => FlipCount(data[i].value))
  }

  /** An entry's flip count is 16 minus the set bits of its value. */
  lemma EntryFlipsFromOnes(data: seq<Measurement>, i: nat, ones: nat)
    requires i < |data| && PopCount(data[i].value) == ones
    ensures BitFlips(data)[i] == WORD_BITS - ones
  {
    FlipCountIsZeroBits(data[i].value);
  }

  /** `adjacent_flips`: one adjacency count per measurement, in data order. */
  function AdjacentFlips(data: seq<Measurement>): (r: seq<nat>)
    ensures |r| == |data|
    ensures forall i :: 0 <= i < |data| ==> r[i] == AdjacentCount(data[i].value)
    ensures forall i :: 0 <= i < |r| ==> r[i] <= WORD_BITS - 1
  {
    seq(|data|, i requires 0 <= i < |data| => AdjacentCount(data[i].value))
  }

  /** `addresses`: the address column, in data order. */
  function Addresses(data: seq<Measurement>): (r: seq<nat>)
    ensures |r| == |data|
    ensures forall i :: 0 <= i < |data| ==> r[i] == data[i].addr
  {
    seq(|data|, i requires 0 <= i < |data| => data[i].addr)
  }

  /** The number of measurements whose value differs from the pattern. */
  function CountChanged(data: seq<Measurement>): (r: nat)
    ensures r <= |data|
  {
    if data == [] then 0
    else (if data[0].value != PATTERN then 1 else 0) + CountChanged(data[1..])
  }
}
