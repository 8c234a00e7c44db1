/** `Test/Backward/31.3us/plot.py`: the dense view of the window 0x100 .. 0xA00, written with
    the guarded flip count. */
module Backward31_3us {
  import opened Flips
  import opened Stats
  import opened Ordering
  import opened Window

  const Data: seq<Measurement> := [
    Measurement(0x9CD, PATTERN), Measurement(0x93F, 0x00BA), Measurement(0x8CA, PATTERN),
    Measurement(0x838, 0x0000), Measurement(0x700, 0xD800), Measurement(0x6E0, PATTERN),
    Measurement(0x600, 0xCE00), Measurement(0x5E9, PATTERN), Measurement(0x5E6, 0x0005),
    Measurement(0x51B, 0x00BA), Measurement(0x4EE, PATTERN), Measurement(0x4DF, 0x0004),
    Measurement(0x3F4, 0x0003), Measurement(0x309, 0x0000), Measurement(0x300, 0x8000),
    Measurement(0x20E, 0x0000), Measurement(0x1F5, PATTERN), Measurement(0x107, 0x00BA)
  ]

  const X_MIN: nat := 0x100
  const X_MAX: nat := 0xA00

  /** The dataset is listed in strictly descending address order, so no address repeats. */
  lemma AddressesDescending()
    ensures forall i, j :: 0 <= i < j < |Data| ==> Data[i].addr > Data[j].addr
    ensures DistinctAddrs(Data)
  {
    forall i | 0 <= i < |Data| - 1
      ensures Data[i].addr > Data[i + 1].addr
    {
      assert i in {0, 1, 2, 3, 4, 5, 6, 7, 8, 9, 10, 11, 12, 13, 14, 15, 16};
    }
    StepwiseDescendingDistinct(Data);
  }

  /** Every measurement lies inside the window, so the filter keeps them all. */
  lemma AllInside()
    ensures forall j :: 0 <= j < |Data| ==> X_MIN <= Data[j].addr <= X_MAX
    ensures InWindow(Data, X_MIN, X_MAX) == Data
  {
    forall j | 0 <= j < |Data|
      ensures X_MIN <= Data[j].addr <= X_MAX
    {
      assert j in {0, 1, 2, 3, 4, 5, 6, 7, 8, 9, 10, 11, 12, 13, 14, 15, 16, 17};
    }
    AllInWindowKept(Data, X_MIN, X_MAX);
  }

  /** `bit_flips_full`: 0x901 slots; every measurement's guarded flip count sits at
      addr - x_min and every other slot is 0. */
  method BitFlipsFull() returns (full: array<nat>)
    ensures fresh(full) && full.Length == 0x901
    ensures forall i :: 0 <= i < full.Length ==> full[i] <= WORD_BITS
    ensures forall j :: 0 <= j < |Data| ==>
              full[Data[j].addr - X_MIN] == GuardedFlipCount(Data[j].value)
    ensures forall i :: 0 <= i < full.Length && (forall j :: 0 <= j < |Data| ==> Data[j].addr != X_MIN + i)
              ==> full[i] == 0
  {
    full := FillWindow(Data, X_MIN, X_MAX);
    AllInside();
    AddressesDescending();
    forall j | 0 <= j < |Data|
      ensures full[Data[j].addr - X_MIN] == GuardedFlipCount(Data[j].value)
    {
      DistinctEntriesAllWritten(Data, j);
      GuardIsRedundant(Data[j].value);
    }
    forall i | 0 <= i < full.Length && (forall j :: 0 <= j < |Data| ==> Data[j].addr != X_MIN + i)
      ensures full[i] == 0
    {
      AbsentAddressStaysZero(Data, X_MIN + i);
    }
  }

  /** `tick_step = max(1, (x_max - x_min) // 16)` is 144, so `x_range[::tick_step]` gives 17
      ticks. */
  lemma TickCount()
    ensures TickStep(X_MIN, X_MAX, 16) == 144
    ensures |Ticks(X_MIN, X_MAX, 16)| == 17
  {
    var r := Ticks(X_MIN, X_MAX, 16);
    EveryNthLength(XRange(X_MIN, X_MAX), 144);
    assert (|r| - 1) * 144 < 0x901 <= |r| * 144;
  }
}
