/** `Test/Backward/125us/plot.py`: the dataset sorted by address, its address range and its
    summary statistics. */
module Backward125us {
  import opened Flips
  import opened Stats
  import opened Ordering

  const Data: seq<Measurement> := [
    Measurement(0x9CD, PATTERN), Measurement(0x93F, 0xBA), Measurement(0x8CA, PATTERN),
    Measurement(0x700, 0xD800), Measurement(0x6E0, PATTERN), Measurement(0x600, 0xCE00),
    Measurement(0x5E9, PATTERN), Measurement(0x5E6, 0x5), Measurement(0x51B, 0xBA),
    Measurement(0x4EE, PATTERN), Measurement(0x4DF, 0x4), Measurement(0x41C, 0x0),
    Measurement(0x3F4, 0x3), Measurement(0x309, 0x0), Measurement(0x300, 0x8000),
    Measurement(0x20E, 0x0), Measurement(0x1F5, PATTERN), Measurement(0x107, 0x0),
    Measurement(0xB8, 0x100), Measurement(0x0, 0x0)
  ]

  /** The listing runs in strictly descending address order, from 0x9CD down to 0x0. */
  lemma AddressesDescending()
    ensures forall i, j :: 0 <= i < j < |Data| ==> Data[i].addr > Data[j].addr
  {
    NeighboursDescendingFrom(0);
    NeighboursDescendingFrom(10);
    StepwiseDescendingDistinct(Data);
  }

  lemma NeighboursDescendingFrom(lo: nat)
    requires lo == 0 || lo == 10
    ensures forall i :: lo <= i < lo + 10 && i < |Data| - 1 ==> Data[i].addr > Data[i + 1].addr
  {
    forall i | lo <= i < lo + 10 && i < |Data| - 1
      ensures Data[i].addr > Data[i + 1].addr
    {
      assert i in {0, 1, 2, 3, 4, 5, 6, 7, 8, 9, 10, 11, 12, 13, 14, 15, 16, 17, 18};
    }
  }

  /** `data_sorted = sorted(data, key=lambda x: x[0])` is an ascending permutation of the data;
      any such permutation starts with (0x0, 0x0) and ends with (0x9CD, 0xFFFF). */
  lemma SortedEndpoints(sorted: seq<Measurement>)
    requires SortedByAddr(sorted) && multiset(sorted) == multiset(Data)
    ensures |sorted| == 20
    ensures sorted[0] == Measurement(0x0, 0x0)
    ensures sorted[19] == Measurement(0x9CD, 0xFFFF)
  {
    AddressesDescending();
    DescendingSortEnds(Data, sorted);
  }

  /** `min(addresses)` is 0x0 and `max(addresses)` is 0x9CD. */
  lemma AddressRange(sorted: seq<Measurement>)
    requires SortedByAddr(sorted) && multiset(sorted) == multiset(Data)
    ensures Min(Addresses(sorted)) == 0x0
    ensures Max(Addresses(sorted)) == 0x9CD
  {
    SortedEndpoints(sorted);
    SortedEnds(sorted);
  }

  /** `max_flips` is 16, and `max_addr` is 0x0, the first entry of the sorted list. */
  lemma MaxAt0x0(sorted: seq<Measurement>)
    requires SortedByAddr(sorted) && multiset(sorted) == multiset(Data)
    ensures Summarize(sorted).Ok?
    ensures Summarize(sorted).value.maxFlips == WORD_BITS
    ensures Summarize(sorted).value.maxAddr == 0x0
  {
    SortedEndpoints(sorted);
    FirstWipedWordIsMax(sorted, 0);
  }

  /** `xticks = list(range(min(addresses), max(addresses) + 1, 0x100))`: ten ticks, 0x0 to 0x900. */
  lemma XTicks(sorted: seq<Measurement>)
    requires SortedByAddr(sorted) && multiset(sorted) == multiset(Data)
    ensures |RangeList(Min(Addresses(sorted)), Max(Addresses(sorted)) + 1, 0x100)| == 10
  {
    AddressRange(sorted);
    RangeListCount(0x0, 0x9CE, 0x100, 10);
  }
}
