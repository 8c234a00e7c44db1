/** The dense per-address view of the 31.3us scripts: a zero array covering the address
    window `x_min .. x_max`, filled in place with each in-window measurement's flip count. */
module Window {
  import opened Flips
  import opened Stats

  /** The number of addresses from xMin to xMax inclusive, 0 when the window is empty. */
  function WindowLength(xMin: nat, xMax: nat): nat
  {
    if xMin <= xMax then xMax - xMin + 1 else 0
  }

  /** What the fill loop leaves at `addr` after running over `data`: the flip count of the last
      measurement at that address, or 0 if there is none. */
  function LastFlip(data: seq<Measurement>, addr: nat): (r: nat)
    ensures r <= WORD_BITS
  {
    if data == [] then 0
    else if data[|data| - 1].addr == addr then FlipCount(data[|data| - 1].value)
    else LastFlip(data[..|data| - 1], addr)
  }

  /** `bit_flips_full = np.zeros_like(x_range)` followed by
      `for addr, val in data: if x_min <= addr <= x_max: bit_flips_full[addr - x_min] = flips`. */
  method FillWindow(data: seq<Measurement>, xMin: nat, xMax: nat) returns (full: array<nat>)
    ensures fresh(full)
    ensures full.Length == WindowLength(xMin, xMax)
    ensures forall i :: 0 <= i < full.Length ==> full[i] == LastFlip(data, xMin + i)
    ensures forall i :: 0 <= i < full.Length ==> full[i] <= WORD_BITS
  {
    full := new nat[WindowLength(xMin, xMax)](_ => 0);
    var k := 0;
    while k < |data|
      invariant 0 <= k <= |data|
      invariant forall i :: 0 <= i < full.Length ==> full[i] == LastFlip(data[..k], xMin + i)
    {
      var e := data[k];
      assert data[..k + 1][..k] == data[..k];
      if xMin <= e.addr <= xMax {
        full[e.addr - xMin] := FlipCount(e.value);
      }
      k := k + 1;
    }
    assert data[..|data|] == data;
  }

  /** `bin(val ^ PATTERN).count('1') if val != PATTERN else 0`, the guarded form one script
      writes. */
  function GuardedFlipCount(val: Word): (r: nat)
    ensures r <= WORD_BITS
    ensures r == 0 <==> val == PATTERN
  {
    if val != PATTERN then FlipCount(val) else 0
  }

  /** The guard changes nothing: an unflipped word already has flip count 0. */
  lemma GuardIsRedundant(val: Word)
    ensures GuardedFlipCount(val) == FlipCount(val)
  {
  }

  /** A slot whose address never occurs in the data keeps its initial 0. */
  lemma {:induction false} AbsentAddressStaysZero(data: seq<Measurement>, addr: nat)
    requires forall j :: 0 <= j < |data| ==> data[j].addr != addr
    ensures LastFlip(data, addr) == 0
  {
    if data != [] {
      AbsentAddressStaysZero(data[..|data| - 1], addr);
    }
  }

  /** A non-zero slot was written by a measurement at its address whose value is not the
      pattern. */
  lemma {:induction false} NonZeroSlotWasFlipped(data: seq<Measurement>, addr: nat)
    requires LastFlip(data, addr) > 0
    ensures exists j :: 0 <= j < |data| && data[j].addr == addr && data[j].value != PATTERN
  {
    var n := |data| - 1;
    if data[n].addr != addr {
      NonZeroSlotWasFlipped(data[..n], addr);
      var j :| 0 <= j < n && data[..n][j].addr == addr && data[..n][j].value != PATTERN;
      assert data[j] == data[..n][j];
    }
  }

  /** Last write wins: when an address occurs more than once, the slot holds the flip count
      of its last occurrence. */
  lemma {:induction false} LastWriteWins(data: seq<Measurement>, j: nat)
    requires j < |data|
    requires forall m :: j < m < |data| ==> data[m].addr != data[j].addr
    ensures LastFlip(data, data[j].addr) == FlipCount(data[j].value)
  {
    var n := |data| - 1;
    if j < n {
      assert data[..n][j] == data[j];
      LastWriteWins(data[..n], j);
    }
  }

  /** With distinct addresses, every measurement's own flip count ends up in its slot. */
  lemma DistinctEntriesAllWritten(data: seq<Measurement>, j: nat)
    requires DistinctAddrs(data) && j < |data|
    ensures LastFlip(data, data[j].addr) == FlipCount(data[j].value)
  {
    LastWriteWins(data, j);
  }

  /** `[(addr, val) for addr, val in data if x_min <= addr <= x_max]`, built from the back like
      `LastFlip`. */
  function InWindow(data: seq<Measurement>, xMin: nat, xMax: nat): (r: seq<Measurement>)
    ensures |r| <= |data|
    ensures forall e :: e in r <==> e in data && xMin <= e.addr <= xMax
  {
    if data == [] then []
    else
      var last := data[|data| - 1];
      var front := data[..|data| - 1];
      assert data == front + [last];
      InWindow(front, xMin, xMax) + (if xMin <= last.addr <= xMax then [last] else [])
  }

  /** Measurements outside the window are skipped: dropping them leaves every slot as it was. */
  lemma {:induction false} OutsideEntriesIgnored(data: seq<Measurement>, xMin: nat, xMax: nat, i: nat)
    requires i < WindowLength(xMin, xMax)
    ensures LastFlip(InWindow(data, xMin, xMax), xMin + i) == LastFlip(data, xMin + i)
  {
    if data != [] {
      var n := |data| - 1;
      var w := InWindow(data[..n], xMin, xMax);
      OutsideEntriesIgnored(data[..n], xMin, xMax, i);
      if xMin <= data[n].addr <= xMax {
        assert (w + [data[n]])[..|w|] == w;
      } else {
        assert w + [] == w;
      }
    }
  }

  /** When every measurement lies in the window, none is skipped. */
  lemma {:induction false} AllInWindowKept(data: seq<Measurement>, xMin: nat, xMax: nat)
    requires forall j :: 0 <= j < |data| ==> xMin <= data[j].addr <= xMax
    ensures InWindow(data, xMin, xMax) == data
  {
    if data != [] {
      var n := |data| - 1;
      var front := data[..n];
      forall j | 0 <= j < |front|
        ensures xMin <= front[j].addr <= xMax
      {
        assert front[j] == data[j];
      }
      AllInWindowKept(front, xMin, xMax);
      assert InWindow(data, xMin, xMax) == front + [data[n]];
      DropLastAppend(data);
    }
  }

  lemma DropLastAppend<T>(s: seq<T>)
    requires s != []
    ensures s[..|s| - 1] + [s[|s| - 1]] == s
  {
  }

  /** `x_range = np.arange(x_min, x_max + 1)`: every address of the window, once, in ascending
      order. */
  function XRange(xMin: nat, xMax: nat): (r: seq<nat>)
    ensures |r| == WindowLength(xMin, xMax)
    ensures forall i :: 0 <= i < |r| ==> r[i] == xMin + i
    ensures forall i :: 0 <= i < |r| ==> xMin <= r[i] <= xMax
    ensures forall a :: xMin <= a <= xMax ==> a in r
  {
    var r := seq(WindowLength(xMin, xMax), i requires 0 <= i < WindowLength(xMin, xMax) => xMin + i);
    forall a | xMin <= a <= xMax
      ensures a in r
    {
      assert r[a - xMin] == a;
    }
    r
  }

  /** `ticks = x_range[::max(1, (x_max - x_min) // parts)]`: empty exactly for an empty window,
      and otherwise starting at x_min. */
  function Ticks(xMin: nat, xMax: nat, parts: nat): (r: seq<nat>)
    requires parts >= 1
    ensures r == [] <==> xMax < xMin
    ensures r != [] ==> r[0] == xMin
  {
    var r := EveryNth(XRange(xMin, xMax), TickStep(xMin, xMax, parts));
    if r == [] then r
    else
      EveryNthAt(XRange(xMin, xMax), TickStep(xMin, xMax, parts), 0);
      r
  }

  /** Every tick is an address of the window, a whole number of steps past x_min, and the
      first tick is x_min itself. */
  lemma TicksOnGrid(xMin: nat, xMax: nat, parts: nat, k: nat)
    requires parts >= 1 && k < |Ticks(xMin, xMax, parts)|
    ensures Ticks(xMin, xMax, parts)[k] == xMin + k * TickStep(xMin, xMax, parts) <= xMax
  {
    EveryNthAt(XRange(xMin, xMax), TickStep(xMin, xMax, parts), k);
  }
}
