/** `Test/Forward/62.5us/plot.py`: the entries up to X_LIMIT, sorted by address, and their
    summary statistics. */
module Forward62_5us {
  import opened Flips
  import opened Stats
  import opened Ordering

  const Data: seq<Measurement> := [
    Measurement(0xC, 0xC), Measurement(0x1C, PATTERN), Measurement(0x71, 0x0),
    Measurement(0x73, 0xFF), Measurement(0x7C, 0x7C00), Measurement(0xA0, 0x0),
    Measurement(0xA1, 0xB), Measurement(0xA2, 0xFF), Measurement(0xA4, 0xDA6D),
    Measurement(0xCE, 0x0), Measurement(0xCF, 0x2), Measurement(0xD7, 0x303),
    Measurement(0xDD, 0x0), Measurement(0xDE, 0x1F03), Measurement(0xDF, 0x0),
    Measurement(0xE0, 0x203), Measurement(0xE8, 0x0), Measurement(0xF3, 0x13),
    Measurement(0xF5, 0x300), Measurement(0x1B0, 0xB00), Measurement(0x1F2, 0x1B09),
    Measurement(0x232, 0x200), Measurement(0x245, 0xFB5B), Measurement(0x262, 0x85),
    Measurement(0x263, PATTERN), Measurement(0x2B1, 0x3), Measurement(0x2B4, 0x300),
    Measurement(0x2B5, 0x302), Measurement(0x2B8, 0x3), Measurement(0x2B9, 0x1B03),
    Measurement(0x3AC, 0x3), Measurement(0x3B1, 0x1B02), Measurement(0x5E9, PATTERN),
    Measurement(0x622, PATTERN)
  ]

  /** Addresses beyond this limit are not plotted. */
  const X_LIMIT: nat := 0x3B1

  /** `data_sorted = sorted([(a, v) for a, v in data if a <= X_LIMIT], key=lambda x: x[0])`. */
  function DataSorted(): seq<Measurement>
  {
    SortFiltered(Data, X_LIMIT)
  }

  lemma NeighboursAscendingFrom(lo: nat)
    requires lo == 0 || lo == 17
    ensures forall i :: lo <= i < lo + 16 ==> Data[i].addr <= Data[i + 1].addr
  {
    forall i | lo <= i < lo + 16
      ensures Data[i].addr <= Data[i + 1].addr
    {
      assert i in {0, 1, 2, 3, 4, 5, 6, 7, 8, 9, 10, 11, 12, 13, 14, 15, 16, 17, 18, 19, 20, 21, 22, 23, 24, 25, 26, 27, 28, 29, 30, 31, 32};
    }
  }

  /** The dataset is already listed in ascending order, and only its last two entries (0x5E9
      and 0x622) lie beyond X_LIMIT. */
  lemma DataAscendingUpToLimit()
    ensures SortedByAddr(Data)
    ensures forall i :: 0 <= i < |Data| ==> (Data[i].addr <= X_LIMIT <==> i < 32)
  {
    NeighboursAscendingFrom(0);
    NeighboursAscendingFrom(17);
    assert Data[16].addr <= Data[17].addr;
    StepwiseSorted(Data);
    assert Data[31].addr == X_LIMIT && Data[32].addr == 0x5E9;
  }

  /** The entries within X_LIMIT: the first 32 of the listing. */
  const Kept: seq<Measurement> := Data[..32]

  /** The filter keeps the first 32 entries, in their listed order. */
  lemma FilterKeepsPrefix()
    ensures UpTo(Data, X_LIMIT) == Kept
    ensures SortedByAddr(Kept)
  {
    DataAscendingUpToLimit();
    UpToPrefix(Data, X_LIMIT, 32);
    UpToKeepsOrder(Data, X_LIMIT);
  }

  /** Filtering then sorting leaves the first 32 entries in their listed order. */
  lemma DataSortedIsPrefix()
    ensures DataSorted() == Kept
  {
    FilterKeepsPrefix();
    SortSortedIsIdentity(Kept);
  }

  /** Over the kept entries `max_flips` is 16, first reached at index 2, address 0x71. */
  lemma KeptMaxAt0x71()
    ensures Summarize(Kept).Ok?
    ensures Summarize(Kept).value.maxFlips == WORD_BITS
    ensures Summarize(Kept).value.maxAddr == 0x71
  {
    assert Kept[0] == Data[0] && Kept[1] == Data[1] && Kept[2] == Data[2];
    assert Data[0].value == 0xC && Data[1].value == 0xFFFF && Data[2] == Measurement(0x71, 0);
    FirstWipedWordIsMax(Kept, 2);
  }

  /** `max_flips` of the plotted data is 16, first reached at 0x71. */
  lemma MaxAt0x71()
    ensures Summarize(DataSorted()).Ok?
    ensures Summarize(DataSorted()).value.maxFlips == WORD_BITS
    ensures Summarize(DataSorted()).value.maxAddr == 0x71
  {
    DataSortedIsPrefix();
    KeptMaxAt0x71();
  }

  /** `xticks = list(range(min(addresses), X_LIMIT + 1, 0x40))`: min(addresses) is 0xC, the
      first kept entry, giving 15 ticks. */
  lemma XTicks()
    ensures Min(Addresses(DataSorted())) == 0xC
    ensures |RangeList(Min(Addresses(DataSorted())), X_LIMIT + 1, 0x40)| == 15
  {
    KeptStartsAt0xC();
    DataSortedIsPrefix();
    RangeListCount(0xC, X_LIMIT + 1, 0x40, 15);
  }

  lemma KeptStartsAt0xC()
    ensures Min(Addresses(Kept)) == 0xC
  {
    FilterKeepsPrefix();
    assert Kept[0] == Data[0];
    SortedEnds(Kept);
  }
}
