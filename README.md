# SDRAM data-remanence bit-error evaluator, modelled in Dafny

The repository studies SDRAM data remanence on a DE1-SoC board. Every word of a memory region
is written with the pattern `0xFFFF`, refresh is held off for a set period (15.6us, 31.3us,
62.5us, 125us), and the words are read back over UART. A family of Python plot scripts then
evaluates each dump. For every `(address, value)` measurement they compute:

- the number of flipped bits, `bin(val ^ 0xFFFF).count('1')`;
- in the DUMP1 script, the number of adjacent flipped-bit pairs inside the 16-bit word;
- statistics over the dump: total flips, affected addresses, the maximum and the first address
  reaching it, and the percentage of the 40960 tested bits;
- the axis data for the plot: an address window filled in place, filtering and sorting by
  address, and every-Nth or `range(...)` tick lists.

The model has one module per concern, shared by all scripts:

- `Bits`: Python's unbounded `^`, `>>`, `& 0b11` and `bin(x).count('1')`, written out on `nat`.
- `Flips`: the per-word flip count, the adjacency loop `count_adjacent_bit_flips` as a method
  with a loop invariant, and the per-dataset lists `bit_flips`, `adjacent_flips` and `addresses`.
- `Stats`: `sum`, `max`, `min`, `list.index` and the summary. A dataset with no measurements,
  where Python's `max` raises, is an error result. Also the percentage, `s[::n]` and
  `list(range(...))`.
- `Ordering`: the `addr <= X_LIMIT` filter and `sorted(..., key=lambda x: x[0])`, modelled as
  an insertion sort proved to give an ascending permutation.
- `Window`: the 31.3us scripts' dense array `bit_flips_full`. It is filled in place by a method
  over an `array<nat>` and specified by "the last in-window write at each address".

Each script has its own module holding its dataset and constants: `Dump1`, `Forward15_6us`,
`Backward15_6us`, `Forward31_3us`, `Backward31_3us`, `Forward62_5us`, `Backward62_5us` and
`Backward125us`. These state what that script computes on its own data.

The word width is explicit: values are `Word = nat < 0x10000`. `count_adjacent_bit_flips` is
modelled for any non-negative `val`, `pattern` and `bits`, which is what every call site passes.
In the dataset literals, words that read back unchanged are written as `PATTERN` (0xFFFF).

0xBA has five set bits, so its flip count against 0xFFFF is 11 (`Flips.FlipCountExamples`).

## Model

| member | source | states |
|---|---|---|
| Bits.Shr | DUMP1/SDRAM_Data_Remanence_DUMP1.py:39 | `x >> i` never exceeds x |
| Bits.Xor | DUMP1/SDRAM_Data_Remanence_DUMP1.py:31 | `a ^ b` is at most a + b, and `0 ^ b` is b |
| Bits.PopCount | DUMP1/SDRAM_Data_Remanence_DUMP1.py:31 | `bin(x).count('1')` never exceeds x |
| Bits.XorZeroIff | DUMP1/SDRAM_Data_Remanence_DUMP1.py:31 | `a ^ b` is 0 exactly when a == b, so a word has flips exactly when it differs from the pattern |
| Bits.XorComm | Test/Forward/15.6us/plot.py:34 | `a ^ b == b ^ a`, so `PATTERN ^ val` and `val ^ PATTERN` agree |
| Bits.XorAllOnes | DUMP1/SDRAM_Data_Remanence_DUMP1.py:31 | xor with the all-ones n-bit mask is the n-bit complement |
| Bits.PopCountZeroIff | DUMP1/SDRAM_Data_Remanence_DUMP1.py:31 | `bin(x).count('1')` is 0 exactly when x is 0 |
| Bits.PopCountBound | DUMP1/SDRAM_Data_Remanence_DUMP1.py:31 | an n-bit number has at most n set bits |
| Bits.PopCountFull | DUMP1/SDRAM_Data_Remanence_DUMP1.py:31 | the only n-bit number with n set bits is all ones |
| Bits.PopCountLowOnes | DUMP1/SDRAM_Data_Remanence_DUMP1.py:31 | for an n-bit number, counting set bits is counting bits 0 .. n-1 |
| Bits.PopCountAppendBit | DUMP1/SDRAM_Data_Remanence_DUMP1.py:31 | appending bit b below x adds b to the set-bit count |
| Bits.PairAtBits | DUMP1/SDRAM_Data_Remanence_DUMP1.py:39 | `((x >> i) & 0b11) == 0b11` holds exactly when bits i and i+1 are both set |
| Bits.AdjacentPairsBelowOnes | DUMP1/SDRAM_Data_Remanence_DUMP1.py:37-40 | among the low n+1 bits there are at most (set bits - 1) adjacent pairs, and none when no bit is set |
| Bits.AdjacentPairsAllOnes | DUMP1/SDRAM_Data_Remanence_DUMP1.py:37-40 | every pair below the top bit of an all-ones number is counted |
| Bits.AdjacentPairsIgnoreHighBits | DUMP1/SDRAM_Data_Remanence_DUMP1.py:37-39 | bits above those the loop inspects do not change the pair count |
| Flips.FlipCount | DUMP1/SDRAM_Data_Remanence_DUMP1.py:31 | a word's flip count is at most 16, and 0 exactly when the word equals PATTERN |
| Flips.FlipCountOperandOrder | Test/Backward/62.5us/plot.py:33 | the `PATTERN ^ val` spelling gives the same count as `val ^ PATTERN` |
| Flips.FlipCountIsZeroBits | DUMP1/SDRAM_Data_Remanence_DUMP1.py:25-31 | against the all-ones pattern the flip count is 16 minus the word's own set bits |
| Flips.FlipCountExamples | DUMP1/SDRAM_Data_Remanence_DUMP1.py:6-7 | 0xFFFF has 0 flips, 0x0 has 16 and 0xBA has 11 |
| Flips.OnesOfBA | DUMP1/SDRAM_Data_Remanence_DUMP1.py:6 | 0xBA has five set bits |
| Flips.FlipCountFullIff | DUMP1/SDRAM_Data_Remanence_DUMP1.py:59 | all 16 bits flipped exactly when the word read back as 0 |
| Flips.CountAdjacentBitFlips | DUMP1/SDRAM_Data_Remanence_DUMP1.py:34-41 | the loop returns the number of i in 0 .. bits-2 with bits i and i+1 of `val ^ pattern` both set, at most bits-1 |
| Flips.AdjacentCount | DUMP1/SDRAM_Data_Remanence_DUMP1.py:43 | with the defaults (pattern 0xFFFF, 16 bits) a word has at most 15 adjacent flips |
| Flips.AdjacentCountUnflipped | DUMP1/SDRAM_Data_Remanence_DUMP1.py:34-41 | a value equal to its pattern has no adjacent flips, whatever the width |
| Flips.AdjacentCountIgnoresHighBits | DUMP1/SDRAM_Data_Remanence_DUMP1.py:37-39 | with the default width only bits 0 .. 15 of `val ^ pattern` matter |
| Flips.AdjacentCountBelowFlips | DUMP1/SDRAM_Data_Remanence_DUMP1.py:31-43 | adjacent flips are at most the flip count minus one, and 0 when nothing flipped |
| Flips.AllFlippedIffAllAdjacent | DUMP1/SDRAM_Data_Remanence_DUMP1.py:57-60 | a word has 16 flips exactly when it has 15 adjacent flips, the "should be 15" the script prints |
| Flips.FullFlipsAreFullyAdjacent | DUMP1/SDRAM_Data_Remanence_DUMP1.py:58-60 | in any dataset every entry with 16 flips has 15 adjacent flips |
| Flips.BitFlips | DUMP1/SDRAM_Data_Remanence_DUMP1.py:31 | one flip count per measurement in data order, each at most 16 and 0 exactly for unchanged words |
| Flips.EntryFlipsFromOnes | DUMP1/SDRAM_Data_Remanence_DUMP1.py:31 | an entry with k set bits has 16 - k flips |
| Flips.AdjacentFlips | DUMP1/SDRAM_Data_Remanence_DUMP1.py:43 | one adjacency count per measurement in data order, each at most 15 |
| Flips.Addresses | DUMP1/SDRAM_Data_Remanence_DUMP1.py:27 | the address column, entry by entry |
| Stats.Sum | Test/Backward/15.6us/plot.py:45 | `sum(bit_flips)` is at least every entry |
| Stats.CountPositive | Test/Backward/15.6us/plot.py:46 | `sum(1 for b in bit_flips if b > 0)` is at most the length, and 0 exactly when every entry is 0 |
| Stats.Max | Test/Backward/15.6us/plot.py:47 | `max` returns an element of the list that no element exceeds |
| Stats.Min | Test/Backward/62.5us/plot.py:47 | `min` returns an element of the list that no element is below |
| Stats.FirstIndex | Test/Backward/15.6us/plot.py:48 | `list.index(v)` is the first position holding v |
| Stats.Summarize | Test/Backward/15.6us/plot.py:45-48 | an empty dataset is an error (`max` raises); otherwise the total is the sum of the flip list, affected is the number of positive entries, max_flips bounds every flip count, and max_addr is the address of the first entry reaching it |
| Stats.Percentage | Test/Backward/62.5us/plot.py:54 | the percentage times 40960 is 100 times the total; it is non-negative and at most 100 when the total is at most 40960 |
| Stats.SumBound | Test/Backward/62.5us/plot.py:53 | a list whose entries are at most b sums to at most b times its length |
| Stats.SumZeroIff | Test/Backward/15.6us/plot.py:45 | the total is zero exactly when every entry is zero |
| Stats.AffectedAtMostTotal | Test/Backward/15.6us/plot.py:45-46 | affected addresses never exceed total flips |
| Stats.AffectedAreChanged | Test/Backward/15.6us/plot.py:46 | affected addresses are exactly the measurements whose value is not 0xFFFF |
| Stats.FirstWipedWordIsMax | Test/Backward/15.6us/plot.py:47-48 | when some word read back as 0, max_flips is 16 and max_addr is the address of the first such word |
| Stats.TotalBound | Test/Backward/62.5us/plot.py:53 | the total is at most 16 flips per measurement |
| Stats.EveryNth | Test/Forward/15.6us/plot.py:46 | `s[::n]` is no longer than s and empty exactly when s is |
| Stats.EveryNthLength | Test/Forward/15.6us/plot.py:46 | `s[::n]` has ceil(len(s) / n) elements |
| Stats.EveryNthAt | Test/Forward/15.6us/plot.py:46 | element k of `s[::n]` is element k * n of s |
| Stats.TickStep | Test/Forward/31.3us/plot.py:66 | `max(1, (x_max - x_min) // parts)` is at least 1, is the floor of width over parts when that is at least 1, and is 1 when the width is under two parts |
| Stats.RangeList | Test/Backward/62.5us/plot.py:47 | `list(range(start, stop, step))` is empty exactly when start >= stop, and every element lies in start .. stop - 1 |
| Stats.RangeListLength | Test/Backward/62.5us/plot.py:47 | `range(start, stop, step)` has ceil((stop - start) / step) elements, none when start >= stop |
| Stats.RangeListAt | Test/Backward/62.5us/plot.py:47 | element k of `range(start, stop, step)` is start + k * step and lies below stop |
| Stats.RangeListCount | Test/Backward/125us/plot.py:47 | the tick count is the unique n with (n - 1) steps short of the span and n steps covering it |
| Ordering.UpTo | Test/Forward/62.5us/plot.py:46 | the filter never lengthens the data |
| Ordering.UpToMembers | Test/Forward/62.5us/plot.py:46 | the filter keeps exactly the entries with `addr <= X_LIMIT` |
| Ordering.UpToCounts | Test/Forward/62.5us/plot.py:46 | each entry within the limit is kept as often as it occurs, every other entry not at all |
| Ordering.UpToKeepsOrder | Test/Forward/62.5us/plot.py:46 | filtering a sorted dataset leaves it sorted |
| Ordering.UpToPrefix | Test/Forward/62.5us/plot.py:46 | when exactly the first k entries are within the limit, the filter returns those k in order |
| Ordering.Insert | Test/Forward/62.5us/plot.py:46 | inserting into an ascending list gives an ascending list with one more copy of the entry |
| Ordering.SortByAddr | Test/Backward/125us/plot.py:31 | `sorted(data, key=addr)` is ascending by address and a permutation of the data |
| Ordering.SortFiltered | Test/Forward/62.5us/plot.py:46 | `data_sorted` is ascending by address and no longer than the data |
| Ordering.SortFilteredContents | Test/Forward/62.5us/plot.py:46 | `data_sorted` holds exactly the entries with addr <= X_LIMIT, each as often as in the data |
| Ordering.SortSortedIsIdentity | Test/Forward/62.5us/plot.py:46 | sorting already ascending data changes nothing |
| Ordering.SortedEnds | Test/Backward/125us/plot.py:47 | in ascending data `min(addresses)` is the first address and `max(addresses)` the last |
| Ordering.StepwiseSorted | Test/Forward/62.5us/plot.py:46 | neighbour-by-neighbour ascending data is ascending |
| Ordering.StepwiseDescendingDistinct | Test/Backward/125us/plot.py:5-26 | strictly descending neighbours give strictly descending, distinct addresses |
| Ordering.StepwiseAscendingDistinct | Test/Forward/31.3us/plot.py:5-35 | strictly ascending neighbours give ascending, distinct addresses |
| Ordering.SortedFirstIsMinimum | Test/Backward/125us/plot.py:31 | in any ascending permutation the entry with the strictly smallest address comes first |
| Ordering.SortedLastIsMaximum | Test/Backward/125us/plot.py:31 | in any ascending permutation the entry with the strictly largest address comes last |
| Ordering.DescendingSortEnds | Test/Backward/125us/plot.py:31 | sorting strictly descending data puts its last entry first and its first entry last |
| Window.LastFlip | Test/Forward/31.3us/plot.py:48-51 | what the fill leaves at an address is at most 16 |
| Window.FillWindow | Test/Forward/31.3us/plot.py:45-51 | a fresh zero array of the window's length, filled in place so that each slot holds the flip count of the last in-window measurement at its address (0 if none), at most 16 |
| Window.GuardedFlipCount | Test/Backward/31.3us/plot.py:40 | the guarded count is at most 16 and 0 exactly for an unchanged word |
| Window.GuardIsRedundant | Test/Backward/31.3us/plot.py:40 | the `if val != PATTERN else 0` guard gives the same count as the plain expression |
| Window.AbsentAddressStaysZero | Test/Forward/31.3us/plot.py:45 | a slot whose address never occurs keeps its initial 0 |
| Window.NonZeroSlotWasFlipped | Test/Forward/31.3us/plot.py:55-57 | a non-zero slot, one the plot draws, was written by a measurement at its address whose value is not 0xFFFF |
| Window.LastWriteWins | Test/Forward/31.3us/plot.py:48-51 | with repeated addresses the slot holds the flip count of the last occurrence |
| Window.DistinctEntriesAllWritten | Test/Forward/31.3us/plot.py:48-51 | with distinct addresses every measurement's own flip count is in its slot |
| Window.InWindow | Test/Forward/31.3us/plot.py:49 | the in-window entries are exactly those with x_min <= addr <= x_max |
| Window.OutsideEntriesIgnored | Test/Forward/31.3us/plot.py:49 | dropping the out-of-window measurements leaves every slot unchanged |
| Window.AllInWindowKept | Test/Backward/31.3us/plot.py:38 | when every measurement is in the window, none is skipped |
| Window.XRange | Test/Forward/31.3us/plot.py:42 | `np.arange(x_min, x_max + 1)`: element i is x_min + i, every element lies in the window, and every address of the window occurs |
| Window.Ticks | Test/Forward/31.3us/plot.py:66-67 | `x_range[::tick_step]` is empty exactly for an empty window and otherwise starts at x_min |
| Window.TicksOnGrid | Test/Forward/31.3us/plot.py:66-67 | tick k of `x_range[::tick_step]` is x_min + k * tick_step and within the window |
| Dump1.PrintedCheckHolds | DUMP1/SDRAM_Data_Remanence_DUMP1.py:57-60 | for the dump's data every address with 16 flips has 15 adjacent flips |
| Dump1.AddressRange | DUMP1/SDRAM_Data_Remanence_DUMP1.py:50-51 | the tick range runs from min(addresses) = 0x0 to max(addresses) = 0x9CD |
| Forward15_6us.TickAddresses | Test/Forward/15.6us/plot.py:45-46 | `addresses[::3]` has 8 ticks, tick k being the address of entry 3k |
| Forward15_6us.MaxAt0x309 | Test/Forward/15.6us/plot.py:53-54 | max_flips is 16, first reached at 0x309 |
| Backward15_6us.TickAddresses | Test/Backward/15.6us/plot.py:39-40 | `addresses[::2]` has 8 ticks, tick k being the address of entry 2k |
| Backward15_6us.AffectedIsChanged | Test/Backward/15.6us/plot.py:46 | affected_addrs counts exactly the addresses whose value is not 0xFFFF |
| Backward15_6us.MaxAt0x309 | Test/Backward/15.6us/plot.py:47-48 | max_flips is 16, first reached at 0x309 |
| Forward31_3us.AddressesAscending | Test/Forward/31.3us/plot.py:5-35 | the dataset's addresses are strictly ascending and distinct |
| Forward31_3us.FirstThreeOutside | Test/Forward/31.3us/plot.py:40-41 | exactly the first three measurements lie outside 0x49C .. 0x6D0 |
| Forward31_3us.BitFlipsFull | Test/Forward/31.3us/plot.py:45-51 | a fresh array of 0x235 slots, each the last in-window flip count at its address; every in-window measurement's flip count lands in its own slot |
| Forward31_3us.TickCount | Test/Forward/31.3us/plot.py:66-67 | tick_step is 47 and there are 13 ticks |
| Backward31_3us.AddressesDescending | Test/Backward/31.3us/plot.py:5-24 | the dataset's addresses are strictly descending and distinct |
| Backward31_3us.AllInside | Test/Backward/31.3us/plot.py:29-30 | every measurement lies inside 0x100 .. 0xA00, so the window keeps them all |
| Backward31_3us.BitFlipsFull | Test/Backward/31.3us/plot.py:34-40 | a fresh array of 0x901 slots, each at most 16; every measurement's guarded flip count is at its slot and every other slot is 0 |
| Backward31_3us.TickCount | Test/Backward/31.3us/plot.py:55-56 | tick_step is 144 and there are 17 ticks |
| Forward62_5us.DataAscendingUpToLimit | Test/Forward/62.5us/plot.py:5-43 | the dataset is ascending and exactly its first 32 entries are within X_LIMIT |
| Forward62_5us.FilterKeepsPrefix | Test/Forward/62.5us/plot.py:46 | the filter keeps the first 32 entries, already ascending |
| Forward62_5us.DataSortedIsPrefix | Test/Forward/62.5us/plot.py:46 | `data_sorted` is the first 32 entries in their listed order |
| Forward62_5us.KeptMaxAt0x71 | Test/Forward/62.5us/plot.py:70-71 | over the kept entries max_flips is 16, first reached at 0x71 |
| Forward62_5us.MaxAt0x71 | Test/Forward/62.5us/plot.py:46-71 | over `data_sorted` max_flips is 16, first reached at 0x71 |
| Forward62_5us.KeptStartsAt0xC | Test/Forward/62.5us/plot.py:62 | min(addresses) of the kept entries is 0xC |
| Forward62_5us.XTicks | Test/Forward/62.5us/plot.py:61-62 | `range(min(addresses), X_LIMIT + 1, 0x40)` starts at 0xC and gives 15 ticks |
| Backward62_5us.FlipsListed | Test/Backward/62.5us/plot.py:33 | the flip list is 0, 11, 0, 12, 0, 11, 0, 14, 11, 0, 15, 14, 16, 15, 16, 0, 11, 16, 11 |
| Backward62_5us.TotalIs173 | Test/Backward/62.5us/plot.py:53 | total_flips is 173 |
| Backward62_5us.Reported | Test/Backward/62.5us/plot.py:53-54 | the summary exists, its total is 173, and the percentage is 17300 / 40960 |
| Backward62_5us.MaxAt0x309 | Test/Backward/62.5us/plot.py:55-56 | max_flips is 16, first reached at 0x309 |
| Backward125us.AddressesDescending | Test/Backward/125us/plot.py:5-26 | the dataset is listed in strictly descending address order |
| Backward125us.SortedEndpoints | Test/Backward/125us/plot.py:31 | every ascending permutation of the data has 20 entries, starts with (0x0, 0x0) and ends with (0x9CD, 0xFFFF) |
| Backward125us.AddressRange | Test/Backward/125us/plot.py:32-47 | min(addresses) is 0x0 and max(addresses) is 0x9CD |
| Backward125us.MaxAt0x0 | Test/Backward/125us/plot.py:53-55 | after sorting, max_flips is 16 and max_addr is 0x0 |
| Backward125us.XTicks | Test/Backward/125us/plot.py:46-47 | `range(min(addresses), max(addresses) + 1, 0x100)` gives 10 ticks |

## Left out

- Plot rendering is not modelled: figures, stems, vlines, bars, titles, labels, grid, `xlim` and `ylim` (including `max(bit_flips_full) + 1`), `savefig` and `show`.
- The text of the printed lines and stats boxes (hex formatting, `:.3f`) is not modelled; the values they show are.
- DUMP1's tick positions use `np.linspace`, floating point. Only their endpoints `min(addresses)` and `max(addresses)` are modelled, by `Dump1.AddressRange`.
- Stats.Percentage: computed as an exact ratio of reals, not as a binary floating-point division; the rounding of `/` and the `:.3f` formatting are not modelled.
- numpy integer dtypes are not modelled. `np.zeros_like(..., dtype=int)` becomes an `array<nat>`; every stored value is at most 16, so no overflow can occur.
- Ordering.SortByAddr: an insertion sort specified as an ascending permutation. Stability of Python's `sorted` is not stated, because the addresses within each dataset are distinct (proved for the 31.3us and 125us datasets).
- Backward125us: its lemmas hold for every ascending permutation of the data, which includes `sorted(data)`. Applying them to the literal `SortByAddr(Data)` term is beyond the verifier's budget.
- Stats.Max, Stats.Min and Stats.FirstIndex: they require a non-empty list or a present value, as Python raises otherwise. `Summarize` turns the empty dataset into an error result instead of requiring it away.
- Concrete totals, affected counts and percentages are worked out only for `Test/Backward/62.5us/plot.py`. For the other datasets the model states the maxima, tick lists and windows; their totals follow from the same definitions.
- `Test/Forward/Plot.py` plots a fixed table of percentages against refresh periods and computes nothing; it is not part of this model.
- The `bit flips.py` scripts (total flips averaged over the address space) and the two Backward DUMP scripts are not part of this model.
