/**
 * The ordering step of reassignIndexes: a stable sort of the user settings
 * by their pipelineIndex (Java's List.sort is stable), followed by the
 * renumbering that makes every index equal its position.
 */
module SettingsOrder {
  import opened PipelineSettings

  predicate SortedByIndex(s: seq<Settings>) {
    forall i, j :: 0 <= i < j < |s| ==> s[i].pipelineIndex <= s[j].pipelineIndex
  }

  /** The entries whose pipelineIndex is `k`, in list order. */
  function WithIndex(s: seq<Settings>, k: int): seq<Settings> {
    if s == [] then []
    else WithIndex(s[..|s| - 1], k) + (if s[|s| - 1].pipelineIndex == k then [s[|s| - 1]] else [])
  }

  /**
   * `r` is a stable sort of `s`: ordered by index, same entries, and the
   * entries sharing an index keep their relative order.
   */
  ghost predicate IsStableSortOf(r: seq<Settings>, s: seq<Settings>) {
    && SortedByIndex(r)
    && multiset(r) == multiset(s)
    && forall k :: WithIndex(r, k) == WithIndex(s, k)
  }

  /** Inserts `x` after every entry whose index is at most x's. */
  function Insert(s: seq<Settings>, x: Settings): (r: seq<Settings>)
    ensures |r| == |s| + 1
  {
    if s == [] then [x]
    else if s[|s| - 1].pipelineIndex <= x.pipelineIndex then s + [x]
    else Insert(s[..|s| - 1], x) + [s[|s| - 1]]
  }

  /** Insertion sort by pipelineIndex. */
  function SortByIndex(s: seq<Settings>): (r: seq<Settings>)
    ensures |r| == |s|
  {
    if s == [] then [] else Insert(SortByIndex(s[..|s| - 1]), s[|s| - 1])
  }

  lemma WithIndexAppend(s: seq<Settings>, x: Settings, k: int)
    ensures WithIndex(s + [x], k) == WithIndex(s, k) + (if x.pipelineIndex == k then [x] else [])
  {
    assert (s + [x])[..|s|] == s;
  }

  lemma {:induction false} InsertPermutes(s: seq<Settings>, x: Settings)
    ensures multiset(Insert(s, x)) == multiset(s) + multiset{x}
  {
    if s != [] && s[|s| - 1].pipelineIndex > x.pipelineIndex {
      var p := s[..|s| - 1];
      assert s == p + [s[|s| - 1]];
      InsertPermutes(p, x);
    }
  }

  lemma {:induction false} InsertSorted(s: seq<Settings>, x: Settings)
    requires SortedByIndex(s)
    ensures SortedByIndex(Insert(s, x))
  {
    if s != [] && s[|s| - 1].pipelineIndex > x.pipelineIndex {
      var p, l := s[..|s| - 1], s[|s| - 1];
      assert s == p + [l];
      assert SortedByIndex(p);
      InsertSorted(p, x);
      InsertPermutes(p, x);
      var t := Insert(p, x);
      assert Insert(s, x) == t + [l];
      forall i | 0 <= i < |t| ensures t[i].pipelineIndex <= l.pipelineIndex {
        assert t[i] in multiset(p) + multiset{x};
        if t[i] != x {
          assert t[i] in multiset(p);
          var j :| 0 <= j < |p| && p[j] == t[i];
          assert s[j] == p[j];
        }
      }
    }
  }

  lemma {:induction false} InsertWithIndex(s: seq<Settings>, x: Settings, k: int)
    requires SortedByIndex(s)
    ensures WithIndex(Insert(s, x), k) == WithIndex(s, k) + (if x.pipelineIndex == k then [x] else [])
  {
    if s == [] {
      WithIndexAppend([], x, k);
    } else if s[|s| - 1].pipelineIndex <= x.pipelineIndex {
      WithIndexAppend(s, x, k);
    } else {
      var p, l := s[..|s| - 1], s[|s| - 1];
      assert s == p + [l];
      assert SortedByIndex(p);
      assert Insert(s, x) == Insert(p, x) + [l];
      InsertWithIndex(p, x, k);
      WithIndexAppend(Insert(p, x), l, k);
      WithIndexAppend(p, l, k);
      assert !(x.pipelineIndex == k && l.pipelineIndex == k);
    }
  }

  /** Insertion keeps the order, adds exactly `x`, and places it after its equals. */
  lemma InsertCorrect(s: seq<Settings>, x: Settings)
    requires SortedByIndex(s)
    ensures SortedByIndex(Insert(s, x))
    ensures multiset(Insert(s, x)) == multiset(s) + multiset{x}
    ensures forall k :: WithIndex(Insert(s, x), k) == WithIndex(s, k) + (if x.pipelineIndex == k then [x] else [])
  {
    InsertSorted(s, x);
    InsertPermutes(s, x);
    forall k ensures WithIndex(Insert(s, x), k) == WithIndex(s, k) + (if x.pipelineIndex == k then [x] else []) {
      InsertWithIndex(s, x, k);
    }
  }

  /** SortByIndex is a stable sort. */
  lemma {:induction false} SortByIndexIsStableSort(s: seq<Settings>)
    ensures IsStableSortOf(SortByIndex(s), s)
  {
    if s != [] {
      var p, l := s[..|s| - 1], s[|s| - 1];
      assert s == p + [l];
      SortByIndexIsStableSort(p);
      InsertCorrect(SortByIndex(p), l);
      forall k ensures WithIndex(SortByIndex(s), k) == WithIndex(s, k) {
        WithIndexAppend(p, l, k);
      }
    }
  }

  /** Sorting an already ordered list changes nothing. */
  lemma {:induction false} SortSortedIsIdentity(s: seq<Settings>)
    requires SortedByIndex(s)
    ensures SortByIndex(s) == s
  {
    if s != [] {
      var p := s[..|s| - 1];
      SortSortedIsIdentity(p);
      assert s == p + [s[|s| - 1]];
    }
  }

  /** Sorting keeps the same entries. */
  lemma SortByIndexPermutes(s: seq<Settings>)
    ensures multiset(SortByIndex(s)) == multiset(s)
  {
    SortByIndexIsStableSort(s);
  }

  /** Sorting keeps every index below a bound that all entries respect. */
  lemma SortedBounded(s: seq<Settings>, k: int)
    requires forall i :: 0 <= i < |s| ==> s[i].pipelineIndex <= k
    ensures forall j :: 0 <= j < |s| ==> SortByIndex(s)[j].pipelineIndex <= k
  {
    SortByIndexPermutes(s);
    forall j | 0 <= j < |s| ensures SortByIndex(s)[j].pipelineIndex <= k {
      var l := SortByIndex(s)[j];
      assert l in multiset(s);
      var i :| 0 <= i < |s| && s[i] == l;
    }
  }

  /** An entry appended with an index no smaller than any other stays last. */
  lemma AppendLargestStaysLast(s: seq<Settings>, x: Settings)
    requires forall i :: 0 <= i < |s| ==> s[i].pipelineIndex <= x.pipelineIndex
    ensures SortByIndex(s + [x]) == SortByIndex(s) + [x]
  {
    assert (s + [x])[..|s|] == s;
    SortedBounded(s, x.pipelineIndex);
  }

  /** How many entries have an index of at most `k`. */
  function CountAtMost(s: seq<Settings>, k: int): (r: nat)
    ensures r <= |s|
  {
    if s == [] then 0
    else CountAtMost(s[..|s| - 1], k) + (if s[|s| - 1].pipelineIndex <= k then 1 else 0)
  }

  lemma CountAtMostAppend(s: seq<Settings>, x: Settings, k: int)
    ensures CountAtMost(s + [x], k) == CountAtMost(s, k) + (if x.pipelineIndex <= k then 1 else 0)
  {
    assert (s + [x])[..|s|] == s;
  }

  /** In a sorted list whose last index is at most `k`, every entry counts. */
  lemma {:induction false} CountAtMostSortedAll(s: seq<Settings>, k: int)
    requires SortedByIndex(s) && (s != [] ==> s[|s| - 1].pipelineIndex <= k)
    ensures CountAtMost(s, k) == |s|
  {
    if s != [] {
      var p := s[..|s| - 1];
      if p != [] {
        assert p[|p| - 1] == s[|s| - 2];
      }
      CountAtMostSortedAll(p, k);
    }
  }

  /** Insertion adds `x` to the count exactly when its index is at most `k`. */
  lemma {:induction false} CountAtMostInsert(s: seq<Settings>, x: Settings, k: int)
    ensures CountAtMost(Insert(s, x), k) == CountAtMost(s, k) + (if x.pipelineIndex <= k then 1 else 0)
  {
    if s == [] {
      CountAtMostAppend([], x, k);
    } else if s[|s| - 1].pipelineIndex <= x.pipelineIndex {
      CountAtMostAppend(s, x, k);
    } else {
      var p, l := s[..|s| - 1], s[|s| - 1];
      CountAtMostInsert(p, x, k);
      CountAtMostAppend(Insert(p, x), l, k);
    }
  }

  /** Sorting does not change how many entries have an index of at most `k`. */
  lemma {:induction false} CountAtMostSort(s: seq<Settings>, k: int)
    ensures CountAtMost(SortByIndex(s), k) == CountAtMost(s, k)
  {
    if s != [] {
      var p, l := s[..|s| - 1], s[|s| - 1];
      CountAtMostSort(p, k);
      CountAtMostInsert(SortByIndex(p), l, k);
    }
  }

  /** In a sorted list, `x` is inserted right after the entries whose index is at most its own. */
  lemma {:induction false} InsertLandsAt(s: seq<Settings>, x: Settings)
    requires SortedByIndex(s)
    ensures CountAtMost(s, x.pipelineIndex) < |Insert(s, x)|
    ensures Insert(s, x)[CountAtMost(s, x.pipelineIndex)] == x
  {
    if s != [] {
      var p, l := s[..|s| - 1], s[|s| - 1];
      if l.pipelineIndex <= x.pipelineIndex {
        CountAtMostSortedAll(s, x.pipelineIndex);
      } else {
        InsertLandsAt(p, x);
      }
    }
  }

  /**
   * An appended entry ends up, after the stable sort, right after the
   * entries whose index is at most its own.
   */
  lemma AppendLandsAt(s: seq<Settings>, x: Settings)
    ensures CountAtMost(s, x.pipelineIndex) <= |s|
    ensures SortByIndex(s + [x])[CountAtMost(s, x.pipelineIndex)] == x
  {
    assert (s + [x])[..|s|] == s;
    SortByIndexIsStableSort(s);
    CountAtMostSort(s, x.pipelineIndex);
    InsertLandsAt(SortByIndex(s), x);
  }

  /** Every settings renumbered to its position. */
  function Reindexed(s: seq<Settings>): (r: seq<Settings>)
    ensures |r| == |s| && Dense(r)
    ensures forall i :: 0 <= i < |s| ==> r[i] == s[i].(pipelineIndex := i)
  {
    seq(|s|, i requires 0 <= i < |s| => s[i].(pipelineIndex := i))
  }

  lemma DenseIsSorted(s: seq<Settings>)
    requires Dense(s)
    ensures SortedByIndex(s)
  {
  }

  /** Re-indexing a dense list is the identity. */
  lemma ReindexDenseIsIdentity(s: seq<Settings>)
    requires Dense(s)
    ensures Reindexed(SortByIndex(s)) == s
  {
    SortSortedIsIdentity(s);
  }

  /** Renumbering commutes with appending one entry. */
  lemma ReindexedAppend(s: seq<Settings>, x: Settings)
    ensures Reindexed(s + [x]) == Reindexed(s) + [x.(pipelineIndex := |s|)]
  {
  }

  /** An entry appended to a dense list with the next index keeps every position. */
  lemma AppendNextKeepsOrder(s: seq<Settings>, x: Settings)
    requires Dense(s) && x.pipelineIndex == |s|
    ensures Reindexed(SortByIndex(s + [x])) == s + [x]
  {
    AppendLargestStaysLast(s, x);
    SortSortedIsIdentity(s);
    ReindexedAppend(s, x);
    assert Reindexed(s) == s;
  }

  /** An entry appended with the largest index lands last, after the re-sorted rest. */
  lemma AppendLargestLandsLast(s: seq<Settings>, x: Settings)
    requires forall i :: 0 <= i < |s| ==> s[i].pipelineIndex <= x.pipelineIndex
    ensures Reindexed(SortByIndex(s + [x])) == Reindexed(SortByIndex(s)) + [x.(pipelineIndex := |s|)]
  {
    AppendLargestStaysLast(s, x);
    ReindexedAppend(SortByIndex(s), x);
  }

  /** Removing one entry from a dense list keeps the others in order, renumbered. */
  lemma RemoveFromDenseKeepsOrder(s: seq<Settings>, index: nat)
    requires Dense(s) && index < |s|
    ensures Reindexed(SortByIndex(s[..index] + s[index + 1..])) == Reindexed(s[..index] + s[index + 1..])
  {
    var t := s[..index] + s[index + 1..];
    assert forall i :: 0 <= i < |t| ==> t[i] == if i < index then s[i] else s[i + 1];
    SortSortedIsIdentity(t);
  }

  /** Replacing one entry of a dense list by one carrying the same index keeps every position. */
  lemma ReplaceInDenseKeepsOrder(s: seq<Settings>, index: nat, y: Settings)
    requires Dense(s) && index < |s| && y.pipelineIndex == index
    ensures Reindexed(SortByIndex(s[index := y])) == s[index := y]
  {
    ReindexDenseIsIdentity(s[index := y]);
  }
}
