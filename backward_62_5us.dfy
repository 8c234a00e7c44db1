/** `Test/Backward/62.5us/plot.py`: flip list in data order, total, percentage of the tested
    bits, and the maximum with its address. */
module Backward62_5us {
  import opened Bits
  import opened Flips
  import opened Stats

  const Data: seq<Measurement> := [
    Measurement(0x9CD, PATTERN), Measurement(0x93F, 0xBA), Measurement(0x8CA, PATTERN),
    Measurement(0x700, 0xD800), Measurement(0x6E0, PATTERN), Measurement(0x600, 0xCE00),
    Measurement(0x5E9, PATTERN), Measurement(0x5E6, 0x5), Measurement(0x51B, 0xBA),
    Measurement(0x4EE, PATTERN), Measurement(0x4DF, 0x4), Measurement(0x3F4, 0x3),
    Measurement(0x309, 0x0), Measurement(0x300, 0x8000), Measurement(0x20E, 0x0),
    Measurement(0x1F5, PATTERN), Measurement(0x107, 0xBA), Measurement(0xFB, 0x0),
    Measurement(0x0, 0xBA)
  ]

  // Each lemma below counts the set bits of one value of the dataset by appending its bits
  // one at a time, from the top; 0xBA is counted by `Flips.OnesOfBA`.

  /** 0xD800 = 0b1101_1000_0000_0000 has four set bits. */
  lemma OnesOfD800(v: nat)
    requires v == 0xD800
    ensures PopCount(v) == 4
  {
    PopCountAppendBit(0x0, 1);
    PopCountAppendBit(0x1, 1);
    PopCountAppendBit(0x3, 0);
    PopCountAppendBit(0x6, 1);
    PopCountAppendBit(0xD, 1);
    PopCountAppendBit(0x1B, 0);
    PopCountAppendBit(0x36, 0);
    PopCountAppendBit(0x6C, 0);
    PopCountAppendBit(0xD8, 0);
    PopCountAppendBit(0x1B0, 0);
    PopCountAppendBit(0x360, 0);
    PopCountAppendBit(0x6C0, 0);
    PopCountAppendBit(0xD80, 0);
    PopCountAppendBit(0x1B00, 0);
    PopCountAppendBit(0x3600, 0);
    PopCountAppendBit(0x6C00, 0);
  }

  /** 0xCE00 = 0b1100_1110_0000_0000 has five set bits. */
  lemma OnesOfCE00(v: nat)
    requires v == 0xCE00
    ensures PopCount(v) == 5
  {
    PopCountAppendBit(0x0, 1);
    PopCountAppendBit(0x1, 1);
    PopCountAppendBit(0x3, 0);
    PopCountAppendBit(0x6, 0);
    PopCountAppendBit(0xC, 1);
    PopCountAppendBit(0x19, 1);
    PopCountAppendBit(0x33, 1);
    PopCountAppendBit(0x67, 0);
    PopCountAppendBit(0xCE, 0);
    PopCountAppendBit(0x19C, 0);
    PopCountAppendBit(0x338, 0);
    PopCountAppendBit(0x670, 0);
    PopCountAppendBit(0xCE0, 0);
    PopCountAppendBit(0x19C0, 0);
    PopCountAppendBit(0x3380, 0);
    PopCountAppendBit(0x6700, 0);
  }

  /** 0x8000 = 0b1000_0000_0000_0000 has one set bit. */
  lemma OnesOf8000(v: nat)
    requires v == 0x8000
    ensures PopCount(v) == 1
  {
    PopCountAppendBit(0x0, 1);
    PopCountAppendBit(0x1, 0);
    PopCountAppendBit(0x2, 0);
    PopCountAppendBit(0x4, 0);
    PopCountAppendBit(0x8, 0);
    PopCountAppendBit(0x10, 0);
    PopCountAppendBit(0x20, 0);
    PopCountAppendBit(0x40, 0);
    PopCountAppendBit(0x80, 0);
    PopCountAppendBit(0x100, 0);
    PopCountAppendBit(0x200, 0);
    PopCountAppendBit(0x400, 0);
    PopCountAppendBit(0x800, 0);
    PopCountAppendBit(0x1000, 0);
    PopCountAppendBit(0x2000, 0);
    PopCountAppendBit(0x4000, 0);
  }

  /** 0x5 = 0b101 has two set bits. */
  lemma OnesOf5(v: nat)
    requires v == 0x5
    ensures PopCount(v) == 2
  {
    PopCountAppendBit(0x0, 1);
    PopCountAppendBit(0x1, 0);
    PopCountAppendBit(0x2, 1);
  }

  /** 0x4 = 0b100 has one set bit. */
  lemma OnesOf4(v: nat)
    requires v == 0x4
    ensures PopCount(v) == 1
  {
    PopCountAppendBit(0x0, 1);
    PopCountAppendBit(0x1, 0);
    PopCountAppendBit(0x2, 0);
  }

  /** 0x3 = 0b11 has two set bits. */
  lemma OnesOf3(v: nat)
    requires v == 0x3
    ensures PopCount(v) == 2
  {
    PopCountAppendBit(0x0, 1);
    PopCountAppendBit(0x1, 1);
  }

  /** `bit_flips`, entry by entry in data order. */
  const FlipList: seq<nat> := [0, 11, 0, 12, 0, 11, 0, 14, 11, 0, 15, 14, 16, 15, 16, 0, 11, 16, 11]

  lemma Entry0Flips()
    ensures BitFlips(Data)[0] == FlipList[0] == 0
  {
    assert Data[0].value == PATTERN;
  }

  lemma Entry1Flips()
    ensures BitFlips(Data)[1] == FlipList[1] == 11
  {
    OnesOfBA(Data[1].value);
    EntryFlipsFromOnes(Data, 1, 5);
  }

  lemma Entry2Flips()
    ensures BitFlips(Data)[2] == FlipList[2] == 0
  {
    assert Data[2].value == PATTERN;
  }

  lemma Entry3Flips()
    ensures BitFlips(Data)[3] == FlipList[3] == 12
  {
    OnesOfD800(Data[3].value);
    EntryFlipsFromOnes(Data, 3, 4);
  }

  lemma Entry4Flips()
    ensures BitFlips(Data)[4] == FlipList[4] == 0
  {
    assert Data[4].value == PATTERN;
  }

  lemma Entry5Flips()
    ensures BitFlips(Data)[5] == FlipList[5] == 11
  {
    OnesOfCE00(Data[5].value);
    EntryFlipsFromOnes(Data, 5, 5);
  }

  lemma Entry6Flips()
    ensures BitFlips(Data)[6] == FlipList[6] == 0
  {
    assert Data[6].value == PATTERN;
  }

  lemma Entry7Flips()
    ensures BitFlips(Data)[7] == FlipList[7] == 14
  {
    OnesOf5(Data[7].value);
    EntryFlipsFromOnes(Data, 7, 2);
  }

  lemma Entry8Flips()
    ensures BitFlips(Data)[8] == FlipList[8] == 11
  {
    OnesOfBA(Data[8].value);
    EntryFlipsFromOnes(Data, 8, 5);
  }

  lemma Entry9Flips()
    ensures BitFlips(Data)[9] == FlipList[9] == 0
  {
    assert Data[9].value == PATTERN;
  }

  lemma Entry10Flips()
    ensures BitFlips(Data)[10] == FlipList[10] == 15
  {
    OnesOf4(Data[10].value);
    EntryFlipsFromOnes(Data, 10, 1);
  }

  lemma Entry11Flips()
    ensures BitFlips(Data)[11] == FlipList[11] == 14
  {
    OnesOf3(Data[11].value);
    EntryFlipsFromOnes(Data, 11, 2);
  }

  lemma Entry12Flips()
    ensures BitFlips(Data)[12] == FlipList[12] == 16
  {
    EntryFlipsFromOnes(Data, 12, 0);
  }

  lemma Entry13Flips()
    ensures BitFlips(Data)[13] == FlipList[13] == 15
  {
    OnesOf8000(Data[13].value);
    EntryFlipsFromOnes(Data, 13, 1);
  }

  lemma Entry14Flips()
    ensures BitFlips(Data)[14] == FlipList[14] == 16
  {
    EntryFlipsFromOnes(Data, 14, 0);
  }

  lemma Entry15Flips()
    ensures BitFlips(Data)[15] == FlipList[15] == 0
  {
    assert Data[15].value == PATTERN;
  }

  lemma Entry16Flips()
    ensures BitFlips(Data)[16] == FlipList[16] == 11
  {
    OnesOfBA(Data[16].value);
    EntryFlipsFromOnes(Data, 16, 5);
  }

  lemma Entry17Flips()
    ensures BitFlips(Data)[17] == FlipList[17] == 16
  {
    EntryFlipsFromOnes(Data, 17, 0);
  }

  lemma Entry18Flips()
    ensures BitFlips(Data)[18] == FlipList[18] == 11
  {
    OnesOfBA(Data[18].value);
    EntryFlipsFromOnes(Data, 18, 5);
  }

  lemma FlipsListed()
    ensures BitFlips(Data) == FlipList
  {
    forall i | 0 <= i < |Data|
      ensures BitFlips(Data)[i] == FlipList[i]
    {
      if i == 0 { Entry0Flips(); }
      else if i == 1 { Entry1Flips(); }
      else if i == 2 { Entry2Flips(); }
      else if i == 3 { Entry3Flips(); }
      else if i == 4 { Entry4Flips(); }
      else if i == 5 { Entry5Flips(); }
      else if i == 6 { Entry6Flips(); }
      else if i == 7 { Entry7Flips(); }
      else if i == 8 { Entry8Flips(); }
      else if i == 9 { Entry9Flips(); }
      else if i == 10 { Entry10Flips(); }
      else if i == 11 { Entry11Flips(); }
      else if i == 12 { Entry12Flips(); }
      else if i == 13 { Entry13Flips(); }
      else if i == 14 { Entry14Flips(); }
      else if i == 15 { Entry15Flips(); }
      else if i == 16 { Entry16Flips(); }
      else if i == 17 { Entry17Flips(); }
      else { assert i == 18; Entry18Flips(); }
    }
  }

  /** `total_flips` is 173. */
  lemma TotalIs173()
    ensures Sum(BitFlips(Data)) == 173
  {
    FlipsListed();
    var f := FlipList;
    assert SumFrom(f, 18) == 11;
    assert SumFrom(f, 17) == 27;
    assert SumFrom(f, 16) == 38;
    assert SumFrom(f, 15) == 38;
    assert SumFrom(f, 14) == 54;
    assert SumFrom(f, 13) == 69;
    assert SumFrom(f, 12) == 85;
    assert SumFrom(f, 11) == 99;
    assert SumFrom(f, 10) == 114;
    assert SumFrom(f, 9) == 114;
    assert SumFrom(f, 8) == 125;
    assert SumFrom(f, 7) == 139;
    assert SumFrom(f, 6) == 139;
    assert SumFrom(f, 5) == 150;
    assert SumFrom(f, 4) == 150;
    assert SumFrom(f, 3) == 162;
    assert SumFrom(f, 2) == 162;
    assert SumFrom(f, 1) == 173;
    assert SumFrom(f, 0) == 173;
  }

  /** The reported totals: 173 flips, 173 * 100 / 40960 percent of the tested bits. */
  lemma Reported()
    ensures Summarize(Data).Ok?
    ensures Summarize(Data).value.total == 173
    ensures Percentage(Summarize(Data).value.total) == 17300.0 / 40960.0
  {
    TotalIs173();
  }

  /** The maximum of 16 flips is first reached at 0x309, the first word read back as 0. */
  lemma MaxAt0x309()
    ensures Summarize(Data).Ok?
    ensures Summarize(Data).value.maxFlips == WORD_BITS
    ensures Summarize(Data).value.maxAddr == 0x309
  {
    assert Data[12] == Measurement(0x309, 0x0);
    forall j | 0 <= j < 12
      ensures Data[j].value != 0
    {
      assert j in {0, 1, 2, 3, 4, 5, 6, 7, 8, 9, 10, 11};
    }
    FirstWipedWordIsMax(Data, 12);
  }
}
