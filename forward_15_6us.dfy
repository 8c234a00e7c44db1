/** `Test/Forward/15.6us/plot.py`: flip list in data order, every third address as an axis
    tick, and the summary statistics. */
module Forward15_6us {
  import opened Flips
  import opened Stats

  const Data: seq<Measurement> := [
    Measurement(0x0, 0xBA), Measurement(0xF2, PATTERN), Measurement(0x100, 0xAC00),
    Measurement(0x1FC, 0x1), Measurement(0x2F3, 0x2), Measurement(0x309, 0x0),
    Measurement(0x3FB, PATTERN), Measurement(0x41C, 0xBA), Measurement(0x4E1, 0x4),
    Measurement(0x4EE, PATTERN), Measurement(0x51B, 0xBA), Measurement(0x5E8, 0x5),
    Measurement(0x5E9, PATTERN), Measurement(0x612, 0x0), Measurement(0x6E0, PATTERN),
    Measurement(0x715, 0xBA), Measurement(0x7E7, PATTERN), Measurement(0x800, 0xA00),
    Measurement(0x838, 0x0), Measurement(0x8CA, PATTERN), Measurement(0x93F, 0xBA),
    Measurement(0x9C4, PATTERN)
  ]

  /** `N = 3`: every third address becomes a tick label. */
  const N: nat := 3

  /** `addresses[::N]`. */
  function TickAddresses(): (r: seq<nat>)
    ensures |r| == 8
    ensures forall k :: 0 <= k < |r| ==> r[k] == Data[k * N].addr
  {
    var r := EveryNth(Addresses(Data), N);
    EveryNthLength(Addresses(Data), N);
    forall k | 0 <= k < |r|
      ensures r[k] == Data[k * N].addr
    {
      EveryNthAt(Addresses(Data), N, k);
    }
    r
  }

  /** `max_flips` is 16, first reached at 0x309 (the first word read back as 0). */
  lemma MaxAt0x309()
    ensures Summarize(Data).Ok?
    ensures Summarize(Data).value.maxFlips == WORD_BITS
    ensures Summarize(Data).value.maxAddr == 0x309
  {
    assert Data[5] == Measurement(0x309, 0x0);
    FirstWipedWordIsMax(Data, 5);
  }
}
