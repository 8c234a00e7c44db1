/** `Test/Backward/15.6us/plot.py`: flip list in data order, every second address as an axis
    tick, and the summary statistics. */
module Backward15_6us {
  import opened Flips
  import opened Stats

  const Data: seq<Measurement> := [
    Measurement(0x9CD, PATTERN), Measurement(0x93F, 0xBA), Measurement(0x8CA, PATTERN),
    Measurement(0x700, 0xD800), Measurement(0x6E0, PATTERN), Measurement(0x600, 0xCE00),
    Measurement(0x5E9, PATTERN), Measurement(0x5E6, 0x5), Measurement(0x51B, 0xBA),
    Measurement(0x4EE, PATTERN), Measurement(0x4DF, 0x4), Measurement(0x3F4, 0x3),
    Measurement(0x309, 0x0), Measurement(0x300, 0x8000), Measurement(0x1F5, PATTERN),
    Measurement(0x0, 0xBA)
  ]

  /** `N = 2`: every second address becomes a tick label. */
  const N: nat := 2

  /** `addresses[::N]`. */
  function TickAddresses(): (r: seq<nat>)
    ensures |r| == 8
    ensures forall k :: 0 <= k < |r| ==> r[k] == Data[k * N].addr
  {
    var r := EveryNth(Addresses(Data), N);
    EveryNthLength(Addresses(Data), N);
    forall k | 0 <= k < |r|
      ensures r[k] == Data[k * N].addr
    {
      EveryNthAt(Addresses(Data), N, k);
    }
    r
  }

  /** `affected_addrs` counts exactly the addresses whose value is not 0xFFFF. */
  lemma AffectedIsChanged()
    ensures Summarize(Data).Ok?
    ensures Summarize(Data).value.affected == CountChanged(Data)
  {
    AffectedAreChanged(Data);
  }

  /** `max_flips` is 16, first reached at 0x309. */
  lemma MaxAt0x309()
    ensures Summarize(Data).Ok?
    ensures Summarize(Data).value.maxFlips == WORD_BITS
    ensures Summarize(Data).value.maxAddr == 0x309
  {
    assert Data[12] == Measurement(0x309, 0x0);
    FirstWipedWordIsMax(Data, 12);
  }
}
