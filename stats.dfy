/** The aggregate part of the bit-error evaluator: `sum`, `max`, `min`, `list.index`, the
    affected-address count, the percentage of the tested bits, and the every-Nth slice used
    for axis ticks. */
module Stats {
  import opened Flips

  /** The number of bits covered by the whole test, the denominator of the percentage. */
  const TOTAL_BITS_TESTED: nat := 40960

  /** Python's `sum(s[i:])`, adding from position i to the end. */
  function SumFrom(s: seq<nat>, i: nat): (r: nat)
    ensures forall j :: i <= j < |s| ==> s[j] <= r
    decreases |s| - i
  {
    if i >= |s| then 0 else s[i] + SumFrom(s, i + 1)
  }

  /** Python's `sum(s)`. */
  function Sum(s: seq<nat>): (r: nat)
    ensures forall j :: 0 <= j < |s| ==> s[j] <= r
  {
    SumFrom(s, 0)
  }

  /** `sum(1 for b in s if b > 0)`. */
  function CountPositive(s: seq<nat>): (r: nat)
    ensures r <= |s|
    ensures r == 0 <==> forall i :: 0 <= i < |s| ==> s[i] == 0
  {
    if s == [] then 0
    else
      var rest := CountPositive(s[1..]);
      assert forall i :: 1 <= i < |s| ==> s[i] == s[1..][i - 1];
      (if s[0] > 0 then 1 else 0) + rest
  }

  /** Python's `max(s)`; `max([])` raises, so s must be non-empty. */
  function Max(s: seq<nat>): (r: nat)
    requires |s| > 0
    ensures r in s
    ensures forall i :: 0 <= i < |s| ==> s[i] <= r
  {
    if |s| == 1 then s[0]
    else
      var m := Max(s[1..]);
      if s[0] >= m then s[0] else m
  }

  /** Python's `min(s)`; s must be non-empty. */
  function Min(s: seq<nat>): (r: nat)
    requires |s| > 0
    ensures r in s
    ensures forall i :: 0 <= i < |s| ==> r <= s[i]
  {
    if |s| == 1 then s[0]
    else
      var m := Min(s[1..]);
      if s[0] <= m then s[0] else m
  }

  /** Python's `s.index(v)`: the first position holding v. */
  function FirstIndex(s: seq<nat>, v: nat): (r: nat)
    requires v in s
    ensures r < |s| && s[r] == v
    ensures forall j :: 0 <= j < r ==> s[j] != v
  {
    if s[0] == v then 0 else 1 + FirstIndex(s[1..], v)
  }

  /** The statistics the scripts compute over their flip list. */
  datatype Summary = Summary(total: nat, affected: nat, maxFlips: nat, maxAddr: nat)

  /** `max(bit_flips)` on an empty dataset raises instead of producing a summary. */
  datatype StatsError = EmptyDataset

  datatype Result<T> = Ok(value: T) | Err(error: StatsError)

  /** `total_flips`, `affected_addrs`, `max_flips` and
      `max_addr = addresses[bit_flips.index(max_flips)]` over a dataset, in its given order. */
  function Summarize(data: seq<Measurement>): (r: Result<Summary>)
    ensures r.Err? <==> data == []
    ensures r.Ok? ==> r.value.total == Sum(BitFlips(data))
    ensures r.Ok? ==> r.value.affected == CountPositive(BitFlips(data))
    ensures r.Ok? ==> forall i :: 0 <= i < |data| ==> FlipCount(data[i].value) <= r.value.maxFlips
    ensures r.Ok? ==> exists k :: 0 <= k < |data| && FlipCount(data[k].value) == r.value.maxFlips
                        && data[k].addr == r.value.maxAddr
                        && forall j :: 0 <= j < k ==> FlipCount(data[j].value) < r.value.maxFlips
  {
    if data == [] then Err(EmptyDataset)
    else
      var flips := BitFlips(data);
      var m := Max(flips);
      var k := FirstIndex(flips, m);
      Ok(Summary(Sum(flips), CountPositive(flips), m, Addresses(data)[k]))
  }

  /** `(total_flips / TOTAL_BITS_TESTED) * 100`, as an exact ratio. */
  function Percentage(total: nat): (r: real)
    ensures r >= 0.0
    ensures r * (TOTAL_BITS_TESTED as real) == 100.0 * (total as real)
    ensures total <= TOTAL_BITS_TESTED ==> r <= 100.0
  {
    (total as real / TOTAL_BITS_TESTED as real) * 100.0
  }

  // ---------------------------------------------------------------------------
  // Properties of the aggregates

  lemma {:induction false} SumFromShift(s: seq<nat>, i: nat)
    requires |s| > 0
    ensures SumFrom(s, i + 1) == SumFrom(s[1..], i)
    decreases |s| - i
  {
    if i + 1 < |s| {
      SumFromShift(s, i + 1);
    }
  }

  /** `sum` adds the head to the sum of the tail. */
  lemma SumUnfold(s: seq<nat>)
    requires s != []
    ensures Sum(s) == s[0] + Sum(s[1..])
  {
    SumFromShift(s, 0);
  }

  /** If every entry is at most b, the total is at most b times the length. */
  lemma {:induction false} SumBound(s: seq<nat>, b: nat)
    requires forall i :: 0 <= i < |s| ==> s[i] <= b
    ensures Sum(s) <= b * |s|
  {
    if s != [] {
      SumUnfold(s);
      SumBound(s[1..], b);
      assert b * |s| == b + b * (|s| - 1);
    }
  }

  /** The total is zero exactly when every entry is zero. */
  lemma {:induction false} SumZeroIff(s: seq<nat>)
    ensures Sum(s) == 0 <==> forall i :: 0 <= i < |s| ==> s[i] == 0
  {
    if s != [] {
      SumUnfold(s);
      SumZeroIff(s[1..]);
      assert forall i :: 1 <= i < |s| ==> s[i] == s[1..][i - 1];
    }
  }

  /** Every affected address contributes at least one flip to the total. */
  lemma {:induction false} AffectedAtMostTotal(s: seq<nat>)
    ensures CountPositive(s) <= Sum(s)
  {
    if s != [] {
      SumUnfold(s);
      AffectedAtMostTotal(s[1..]);
    }
  }

  /** The affected addresses are exactly the entries whose value is not the pattern. */
  lemma {:induction false} AffectedAreChanged(data: seq<Measurement>)
    ensures CountPositive(BitFlips(data)) == CountChanged(data)
  {
    if data != [] {
      assert BitFlips(data)[1..] == BitFlips(data[1..]);
      AffectedAreChanged(data[1..]);
    }
  }

  /** When some word read back as 0 every bit of it flipped, so `max_flips` is 16 and
      `max_addr` is the address of the first such word. */
  lemma FirstWipedWordIsMax(data: seq<Measurement>, k: nat)
    requires k < |data| && data[k].value == 0
    requires forall j :: 0 <= j < k ==> data[j].value != 0
    ensures Summarize(data).Ok?
    ensures Summarize(data).value.maxFlips == WORD_BITS
    ensures Summarize(data).value.maxAddr == data[k].addr
  {
    var flips := BitFlips(data);
    FlipCountFullIff(data[k].value);
    forall j | 0 <= j < k
      ensures flips[j] != WORD_BITS
    {
      FlipCountFullIff(data[j].value);
    }
    assert Max(flips) == WORD_BITS;
    assert FirstIndex(flips, WORD_BITS) == k;
  }

  /** Every total of 16-bit flip counts is bounded by 16 flips per measurement. */
  lemma TotalBound(data: seq<Measurement>)
    ensures Sum(BitFlips(data)) <= WORD_BITS * |data|
  {
    SumBound(BitFlips(data), WORD_BITS);
  }

  // ---------------------------------------------------------------------------
  // Axis ticks

  /** Python's `s[::n]`: the elements at positions 0, n, 2n, ... in order. */
  function EveryNth<T>(s: seq<T>, n: nat): (r: seq<T>)
    requires n >= 1
    ensures |r| <= |s|
    ensures r == [] <==> s == []
    decreases |s|
  {
    if |s| == 0 then []
    else if |s| <= n then [s[0]]
    else [s[0]] + EveryNth(s[n..], n)
  }

  /** `s[::n]` has ceil(|s| / n) elements. */
  lemma {:induction false} EveryNthLength<T>(s: seq<T>, n: nat)
    requires n >= 1
    ensures |s| > 0 ==> (|EveryNth(s, n)| - 1) * n < |s| <= |EveryNth(s, n)| * n
    decreases |s|
  {
    if |s| > n {
      var rest := EveryNth(s[n..], n);
      EveryNthLength(s[n..], n);
      MulStep(|rest| + 1, n);
      MulStep(|rest|, n);
    }
  }

  /** Element k of `s[::n]` is element k * n of s. */
  lemma {:induction false} EveryNthAt<T>(s: seq<T>, n: nat, k: nat)
    requires n >= 1 && k < |EveryNth(s, n)|
    ensures k * n < |s| && EveryNth(s, n)[k] == s[k * n]
    decreases |s|
  {
    if k > 0 {
      EveryNthAt(s[n..], n, k - 1);
      MulStep(k, n);
    }
  }

  lemma MulStep(k: int, n: int)
    ensures (k - 1) * n + n == k * n
  {
  }

  /** `max(1, (x_max - x_min) // parts)`: never below 1, and otherwise the floor of the
      window width over the number of parts. */
  function TickStep(xMin: int, xMax: int, parts: nat): (r: nat)
    requires parts >= 1
    ensures r >= 1
    ensures xMax - xMin >= parts ==> r * parts <= xMax - xMin < (r + 1) * parts
    ensures xMax - xMin < 2 * parts ==> r == 1
  {
    var q := (xMax - xMin) / parts;
    if q >= 1 then q else 1
  }
  /** Python's `list(range(start, stop, step))` for a positive step. */
  function RangeList(start: int, stop: int, step: nat): (r: seq<int>)
    requires step >= 1
    ensures r == [] <==> start >= stop
    ensures forall k :: 0 <= k < |r| ==> start <= r[k] < stop
    decreases stop - start
  {
    if start >= stop then [] else [start] + RangeList(start + step, stop, step)
  }

  /** `range(start, stop, step)` has ceil((stop - start) / step) elements, none when
      start >= stop. */
  lemma {:induction false} RangeListLength(start: int, stop: int, step: nat)
    requires step >= 1
    ensures start >= stop ==> |RangeList(start, stop, step)| == 0
    ensures start < stop ==> (|RangeList(start, stop, step)| - 1) * step < stop - start
                             <= |RangeList(start, stop, step)| * step
    decreases stop - start
  {
    if start < stop {
      var n := |RangeList(start + step, stop, step)|;
      RangeListLength(start + step, stop, step);
      MulStep(n + 1, step);
    }
  }

  /** Element k of `range(start, stop, step)` is start + k * step, and it is below stop. */
  lemma {:induction false} RangeListAt(start: int, stop: int, step: nat, k: nat)
    requires step >= 1 && k < |RangeList(start, stop, step)|
    ensures RangeList(start, stop, step)[k] == start + k * step < stop
    decreases stop - start
  {
    if k > 0 {
      RangeListAt(start + step, stop, step, k - 1);
      MulStep(k, step);
    }
  }

  /** The tick count pinned down by the length bounds: n ticks exactly when n - 1 steps fall
      short of the span and n steps cover it. */
  lemma RangeListCount(start: int, stop: int, step: nat, n: nat)
    requires step >= 1 && start < stop
    requires (n - 1) * step < stop - start <= n * step
    ensures |RangeList(start, stop, step)| == n
  {
    var m := |RangeList(start, stop, step)|;
    RangeListLength(start, stop, step);
    MulCancel(m - 1, n, step);
    MulCancel(n - 1, m, step);
  }

  /** Cancelling a positive factor keeps a strict inequality. */
  lemma MulCancel(a: int, b: int, c: nat)
    requires c >= 1 && a * c < b * c
    ensures a < b
  {
    assert (b - a) * c == b * c - a * c;
  }
}
