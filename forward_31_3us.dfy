/** `Test/Forward/31.3us/plot.py`: the dense view of the window 0x49C .. 0x6D0. */
module Forward31_3us {
  import opened Flips
  import opened Stats
  import opened Ordering
  import opened Window

  const Data: seq<Measurement> := [
    Measurement(0x3C, PATTERN), Measurement(0x31E, PATTERN), Measurement(0x3E7, PATTERN),
    Measurement(0x4A6, 0xFE1F), Measurement(0x4E2, PATTERN), Measurement(0x500, PATTERN),
    Measurement(0x55A, 0x3), Measurement(0x55D, 0xB), Measurement(0x55E, 0x0),
    Measurement(0x56E, 0x130B), Measurement(0x570, 0x0), Measurement(0x571, 0x0),
    Measurement(0x572, 0x31B), Measurement(0x573, 0x4B00), Measurement(0x575, 0x300),
    Measurement(0x57E, 0x5B02), Measurement(0x582, 0x1), Measurement(0x58C, 0x0),
    Measurement(0x58F, 0x1B1B), Measurement(0x591, 0x302), Measurement(0x5AF, 0x0),
    Measurement(0x5B0, 0x0), Measurement(0x5B1, 0x0), Measurement(0x5D3, 0x1B00),
    Measurement(0x5E3, PATTERN), Measurement(0x5FD, PATTERN), Measurement(0x605, PATTERN),
    Measurement(0x618, PATTERN), Measurement(0x6CF, 0x0)
  ]

  const X_MIN: nat := 0x49C
  const X_MAX: nat := 0x6D0

  /** The dataset is listed in strictly ascending address order. */
  lemma AddressesAscending()
    ensures forall i, j :: 0 <= i < j < |Data| ==> Data[i].addr < Data[j].addr
    ensures DistinctAddrs(Data)
  {
    NeighboursAscending();
    StepwiseAscendingDistinct(Data);
  }

  lemma NeighboursAscending()
    ensures forall i :: 0 <= i < |Data| - 1 ==> Data[i].addr < Data[i + 1].addr
  {
    NeighboursAscendingFrom(0);
    NeighboursAscendingFrom(14);
  }

  lemma NeighboursAscendingFrom(lo: nat)
    requires lo == 0 || lo == 14
    ensures forall i :: lo <= i < lo + 14 ==> Data[i].addr < Data[i + 1].addr
  {
    forall i | lo <= i < lo + 14
      ensures Data[i].addr < Data[i + 1].addr
    {
      assert i in {0, 1, 2, 3, 4, 5, 6, 7, 8, 9, 10, 11, 12, 13, 14, 15, 16, 17, 18, 19, 20, 21, 22, 23, 24, 25, 26, 27};
    }
  }

  /** Exactly the first three measurements (0x3C, 0x31E and 0x3E7) fall outside the window. */
  lemma FirstThreeOutside()
    ensures forall j :: 0 <= j < |Data| ==> (X_MIN <= Data[j].addr <= X_MAX <==> j >= 3)
  {
    forall j | 0 <= j < |Data|
      ensures X_MIN <= Data[j].addr <= X_MAX <==> j >= 3
    {
      assert j in {0, 1, 2, 3, 4, 5, 6, 7, 8, 9, 10, 11, 12, 13, 14, 15, 16, 17, 18, 19, 20, 21, 22, 23, 24, 25, 26, 27, 28};
    }
  }

  /** `bit_flips_full`: 0x235 slots, slot i holding the flip count of the measurement at
      x_min + i and 0 where there is none; each in-window measurement lands in its own slot. */
  method BitFlipsFull() returns (full: array<nat>)
    ensures fresh(full) && full.Length == 0x235
    ensures forall i :: 0 <= i < full.Length ==> full[i] == LastFlip(Data, X_MIN + i) <= WORD_BITS
    ensures forall j :: 3 <= j < |Data| ==> full[Data[j].addr - X_MIN] == FlipCount(Data[j].value)
  {
    full := FillWindow(Data, X_MIN, X_MAX);
    FirstThreeOutside();
    AddressesAscending();
    forall j | 3 <= j < |Data|
      ensures full[Data[j].addr - X_MIN] == FlipCount(Data[j].value)
    {
      DistinctEntriesAllWritten(Data, j);
    }
  }

  /** `tick_step = max(1, (x_max - x_min) // 12)` is 47, so `x_range[::tick_step]` has 13
      ticks. */
  lemma TickCount()
    ensures TickStep(X_MIN, X_MAX, 12) == 47
    ensures |Ticks(X_MIN, X_MAX, 12)| == 13
  {
    var r := Ticks(X_MIN, X_MAX, 12);
    EveryNthLength(XRange(X_MIN, X_MAX), 47);
    assert (|r| - 1) * 47 < 0x235 <= |r| * 47;
  }
}
