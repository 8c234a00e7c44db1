/** `DUMP1/SDRAM_Data_Remanence_DUMP1.py`: the first dump, its flip and adjacency lists and the
    "should be 15" check it prints for every fully flipped word. */
module Dump1 {
  import opened Flips
  import opened Stats

  /** `data`: (address, value read back) in the order the dump lists them. */
  const Data: seq<Measurement> := [
    Measurement(0x0, 0xBA), Measurement(0x1F5, 0x0), Measurement(0x200, 0x9600),
    Measurement(0x20E, 0x0), Measurement(0x2F3, 0x2), Measurement(0x309, 0x0),
    Measurement(0x3FB, 0x0), Measurement(0x41C, 0xBA), Measurement(0x4EE, 0x0),
    Measurement(0x51B, 0x0), Measurement(0x612, 0xBA), Measurement(0x715, 0xBA),
    Measurement(0x7E7, 0x0), Measurement(0x7EA, 0x7), Measurement(0x8CA, 0x0),
    Measurement(0x93F, 0xBA), Measurement(0x9CD, 0x0)
  ]

  /** The printed check never reports a shortfall: every address of the dump with 16 bit flips
      has 15 adjacent bit flips. */
  lemma PrintedCheckHolds()
    ensures forall i :: 0 <= i < |Data| && BitFlips(Data)[i] == WORD_BITS ==>
              AdjacentFlips(Data)[i] == WORD_BITS - 1
  {
    FullFlipsAreFullyAdjacent(Data);
  }

  /** `min(addresses)` and `max(addresses)`, the ends of the tick range: 0x0 and 0x9CD. */
  lemma AddressRange()
    ensures Min(Addresses(Data)) == 0x0
    ensures Max(Addresses(Data)) == 0x9CD
  {
    var a := Addresses(Data);
    assert a[0] == 0x0 && a[|a| - 1] == 0x9CD;
    forall i | 0 <= i < |a|
      ensures a[i] <= 0x9CD
    {
      assert i in {0, 1, 2, 3, 4, 5, 6, 7, 8, 9, 10, 11, 12, 13, 14, 15, 16};
    }
  }
}
