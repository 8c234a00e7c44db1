/** Selecting and ordering measurements: the `addr <= X_LIMIT` filter and
    `sorted(..., key=lambda x: x[0])`. */
module Ordering {
  import opened Flips
  import opened Stats

  /** Ascending by address. */
  predicate SortedByAddr(s: seq<Measurement>)
  {
    forall i, j :: 0 <= i < j < |s| ==> s[i].addr <= s[j].addr
  }

  /** `[(addr, val) for addr, val in data if addr <= limit]`, keeping data order. */
  function UpTo(data: seq<Measurement>, limit: nat): (r: seq<Measurement>)
    ensures |r| <= |data|
  {
    if data == [] then []
    else (if data[0].addr <= limit then [data[0]] else []) + UpTo(data[1..], limit)
  }

  /** The filter keeps exactly the entries within the limit. */
  lemma {:induction false} UpToMembers(data: seq<Measurement>, limit: nat)
    ensures forall e :: e in UpTo(data, limit) <==> e in data && e.addr <= limit
  {
    if data != [] {
      UpToMembers(data[1..], limit);
      assert data == [data[0]] + data[1..];
    }
  }

  /** The filter keeps every entry within the limit as often as it occurs, and no other. */
  lemma {:induction false} UpToCounts(data: seq<Measurement>, limit: nat, e: Measurement)
    ensures multiset(UpTo(data, limit))[e] == if e.addr <= limit then multiset(data)[e] else 0
  {
    if data != [] {
      var t := data[1..];
      UpToCounts(t, limit, e);
      assert data == [data[0]] + t;
      assert UpTo(data, limit) == (if data[0].addr <= limit then [data[0]] else []) + UpTo(t, limit);
    }
  }

  /** Inserts e into a sorted sequence in front of the first entry whose address is not below
      e's. */
  function Insert(e: Measurement, s: seq<Measurement>): (r: seq<Measurement>)
    requires SortedByAddr(s)
    ensures SortedByAddr(r)
    ensures multiset(r) == multiset(s) + multiset{e}
  {
    if s == [] then [e]
    else if e.addr <= s[0].addr then
      ConsSorted(e, s);
      [e] + s
    else
      var rest := Insert(e, s[1..]);
      assert s == [s[0]] + s[1..];
      forall x | x in rest
        ensures s[0].addr <= x.addr
      {
        assert x in multiset(rest);
        if x != e {
          assert x in multiset(s[1..]);
        }
      }
      ConsSorted(s[0], rest);
      [s[0]] + rest
  }

  /** Putting an entry no greater than the head in front of a sorted sequence keeps it sorted. */
  lemma ConsSorted(x: Measurement, s: seq<Measurement>)
    requires SortedByAddr(s)
    requires s != [] ==> x.addr <= s[0].addr
    ensures SortedByAddr([x] + s)
  {
    var r := [x] + s;
    forall i, j | 0 <= i < j < |r|
      ensures r[i].addr <= r[j].addr
    {
      if i == 0 && j > 1 {
        assert r[j] == s[j - 1];
      }
    }
  }

  /** `sorted(s, key=lambda x: x[0])`: ascending by address and a permutation of s. */
  function SortByAddr(s: seq<Measurement>): (r: seq<Measurement>)
    ensures SortedByAddr(r)
    ensures multiset(r) == multiset(s)
    ensures |r| == |s|
  {
    if s == [] then []
    else
      assert s == [s[0]] + s[1..];
      var r := Insert(s[0], SortByAddr(s[1..]));
      assert |r| == |multiset(r)|;
      r
  }

  /** Filtering keeps the relative order, so a sorted dataset stays sorted. */
  lemma {:induction false} UpToKeepsOrder(data: seq<Measurement>, limit: nat)
    requires SortedByAddr(data)
    ensures SortedByAddr(UpTo(data, limit))
  {
    if data != [] {
      var t := data[1..];
      SortedTail(data);
      UpToKeepsOrder(t, limit);
      var rest := UpTo(t, limit);
      if data[0].addr <= limit {
        if rest != [] {
          UpToMembers(t, limit);
          assert rest[0] in t;
        }
        ConsSorted(data[0], rest);
      } else {
        assert [] + rest == rest;
      }
    }
  }

  /** The tail of a sorted sequence is sorted and no entry of it is below the head. */
  lemma SortedTail(s: seq<Measurement>)
    requires SortedByAddr(s) && s != []
    ensures SortedByAddr(s[1..])
    ensures forall e :: e in s[1..] ==> s[0].addr <= e.addr
  {
    var t := s[1..];
    forall i, j | 0 <= i < j < |t|
      ensures t[i].addr <= t[j].addr
    {
      assert t[i] == s[i + 1] && t[j] == s[j + 1];
    }
    forall e | e in t
      ensures s[0].addr <= e.addr
    {
      var i :| 0 <= i < |t| && t[i] == e;
      assert s[i + 1] == e;
    }
  }

  /** Sorting an already sorted dataset changes nothing. */
  lemma {:induction false} SortSortedIsIdentity(s: seq<Measurement>)
    requires SortedByAddr(s)
    ensures SortByAddr(s) == s
  {
    if s != [] {
      SortSortedIsIdentity(s[1..]);
      assert SortByAddr(s[1..]) == s[1..];
      assert s == [s[0]] + s[1..];
    }
  }

  /** In a sorted dataset `min(addresses)` is the first address and `max(addresses)` the last. */
  lemma SortedEnds(s: seq<Measurement>)
    requires SortedByAddr(s) && |s| > 0
    ensures Min(Addresses(s)) == s[0].addr
    ensures Max(Addresses(s)) == s[|s| - 1].addr
  {
    var a := Addresses(s);
    var lo, hi := Min(a), Max(a);
    assert lo <= a[0] && a[|s| - 1] <= hi;
    var i :| 0 <= i < |a| && a[i] == lo;
    var j :| 0 <= j < |a| && a[j] == hi;
    assert s[0].addr <= s[i].addr;
    assert s[j].addr <= s[|s| - 1].addr;
  }

  /** An ascending sequence given by its neighbours: each address is at most the next. */
  lemma {:induction false} StepwiseSorted(s: seq<Measurement>)
    requires forall i :: 0 <= i < |s| - 1 ==> s[i].addr <= s[i + 1].addr
    ensures SortedByAddr(s)
  {
    if |s| > 1 {
      StepwiseSorted(s[1..]);
      forall j | 1 <= j < |s|
        ensures s[0].addr <= s[j].addr
      {
        assert s[1..][0].addr <= s[1..][j - 1].addr;
      }
    }
  }

  /** When the entries up to position k are within the limit and the rest beyond it, the
      filter keeps exactly the first k entries. */
  lemma {:induction false} UpToPrefix(data: seq<Measurement>, limit: nat, k: nat)
    requires k <= |data|
    requires forall i :: 0 <= i < k ==> data[i].addr <= limit
    requires forall i :: k <= i < |data| ==> data[i].addr > limit
    ensures UpTo(data, limit) == data[..k]
  {
    if data != [] {
      var t := data[1..];
      assert UpTo(data, limit) == (if data[0].addr <= limit then [data[0]] else []) + UpTo(t, limit);
      forall i | 0 <= i < |t|
        ensures t[i] == data[i + 1]
      {
      }
      if k == 0 {
        UpToPrefix(t, limit, 0);
      } else {
        UpToPrefix(t, limit, k - 1);
        assert data[..k] == [data[0]] + t[..k - 1];
      }
    }
  }

  /** Strictly descending addresses, checked neighbour by neighbour, are distinct. */
  lemma {:induction false} StepwiseDescendingDistinct(s: seq<Measurement>)
    requires forall i :: 0 <= i < |s| - 1 ==> s[i].addr > s[i + 1].addr
    ensures forall i, j :: 0 <= i < j < |s| ==> s[i].addr > s[j].addr
    ensures DistinctAddrs(s)
  {
    if |s| > 1 {
      StepwiseDescendingDistinct(s[1..]);
      forall i, j | 0 <= i < j < |s|
        ensures s[i].addr > s[j].addr
      {
        if i > 0 {
          assert s[1..][i - 1].addr > s[1..][j - 1].addr;
        } else if j > 1 {
          assert s[1..][0].addr > s[1..][j - 1].addr;
        }
      }
    }
  }

  /** Strictly ascending addresses, checked neighbour by neighbour, are sorted and distinct. */
  lemma {:induction false} StepwiseAscendingDistinct(s: seq<Measurement>)
    requires forall i :: 0 <= i < |s| - 1 ==> s[i].addr < s[i + 1].addr
    ensures forall i, j :: 0 <= i < j < |s| ==> s[i].addr < s[j].addr
    ensures SortedByAddr(s) && DistinctAddrs(s)
  {
    if |s| > 1 {
      StepwiseAscendingDistinct(s[1..]);
      forall i, j | 0 <= i < j < |s|
        ensures s[i].addr < s[j].addr
      {
        if i > 0 {
          assert s[1..][i - 1].addr < s[1..][j - 1].addr;
        } else if j > 1 {
          assert s[1..][0].addr < s[1..][j - 1].addr;
        }
      }
    }
  }

  /** In any ascending permutation of s, the entry of s with the strictly smallest address
      comes first. */
  lemma SortedFirstIsMinimum(s: seq<Measurement>, r: seq<Measurement>, k: nat)
    requires SortedByAddr(r) && multiset(r) == multiset(s)
    requires k < |s|
    requires forall j :: 0 <= j < |s| && j != k ==> s[k].addr < s[j].addr
    ensures |r| == |s| && r[0] == s[k]
  {
    assert |r| == |multiset(r)|;
    assert s[k] in multiset(r);
    var i :| 0 <= i < |r| && r[i] == s[k];
    assert r[0] in multiset(s);
    var j :| 0 <= j < |s| && s[j] == r[0];
    assert r[0].addr <= r[i].addr;
  }

  /** In any ascending permutation of s, the entry of s with the strictly largest address
      comes last. */
  lemma SortedLastIsMaximum(s: seq<Measurement>, r: seq<Measurement>, k: nat)
    requires SortedByAddr(r) && multiset(r) == multiset(s)
    requires k < |s|
    requires forall j :: 0 <= j < |s| && j != k ==> s[j].addr < s[k].addr
    ensures |r| == |s| && r[|r| - 1] == s[k]
  {
    assert |r| == |multiset(r)|;
    var n := |r| - 1;
    assert s[k] in multiset(r);
    var i :| 0 <= i < |r| && r[i] == s[k];
    assert r[n] in r;
    assert r[n] in multiset(s);
    var j :| 0 <= j < |s| && s[j] == r[n];
    assert i == n || r[i].addr <= r[n].addr;
    assert j == k;
  }

  /** Sorting a strictly descending sequence puts its last entry first and its first entry
      last. */
  lemma DescendingSortEnds(s: seq<Measurement>, r: seq<Measurement>)
    requires SortedByAddr(r) && multiset(r) == multiset(s)
    requires |s| > 0
    requires forall i, j :: 0 <= i < j < |s| ==> s[i].addr > s[j].addr
    ensures |r| == |s|
    ensures r[0] == s[|s| - 1]
    ensures r[|r| - 1] == s[0]
  {
    SortedFirstIsMinimum(s, r, |s| - 1);
    SortedLastIsMaximum(s, r, 0);
  }

  /** `sorted([(addr, val) for addr, val in data if addr <= limit], key=lambda x: x[0])`:
      ascending by address and no longer than the data. */
  function SortFiltered(data: seq<Measurement>, limit: nat): (r: seq<Measurement>)
    ensures SortedByAddr(r)
    ensures |r| <= |data|
  {
    SortByAddr(UpTo(data, limit))
  }

  /** The filtered and sorted list holds exactly the entries within the limit, each as often
      as in the data. */
  lemma SortFilteredContents(data: seq<Measurement>, limit: nat)
    ensures forall e: Measurement :: e in SortFiltered(data, limit) <==> e in data && e.addr <= limit
    ensures forall e: Measurement :: multiset(SortFiltered(data, limit))[e]
                        == if e.addr <= limit then multiset(data)[e] else 0
  {
    var kept := UpTo(data, limit);
    var r := SortFiltered(data, limit);
    UpToMembers(data, limit);
    forall e: Measurement
      ensures multiset(r)[e] == if e.addr <= limit then multiset(data)[e] else 0
    {
      UpToCounts(data, limit, e);
    }
    forall e: Measurement
      ensures e in r <==> e in kept
    {
      assert e in r <==> e in multiset(r);
      assert e in kept <==> e in multiset(kept);
    }
  }
}
