/**
 * The list part of DataCollector._update_history_index
 * (src/data_collector.py:336-346): the new run's entry is appended to the
 * history and the whole list is sorted by its timestamp string, newest
 * first, the way Python orders strings.
 */
module History {
  import opened Wrappers
  import opened Summary

  /** One entry of the history index. */
  datatype HistoryEntry = HistoryEntry(runId: string, timestamp: string, mode: string, summary: Option<SummaryStatistics>)

  /** Python's `a <= b` on strings: lexicographic by code point. */
  predicate LexLeq(a: string, b: string)
  {
    a == [] || (b != [] && (a[0] < b[0] || (a[0] == b[0] && LexLeq(a[1..], b[1..]))))
  }

  lemma {:induction false} LexLeqTotal(a: string, b: string)
    ensures LexLeq(a, b) || LexLeq(b, a)
  {
    if a != [] && b != [] && a[0] == b[0] {
      LexLeqTotal(a[1..], b[1..]);
    }
  }

  lemma {:induction false} LexLeqTransitive(a: string, b: string, c: string)
    requires LexLeq(a, b) && LexLeq(b, c)
    ensures LexLeq(a, c)
  {
    if a != [] && b != [] && c != [] && a[0] == b[0] && b[0] == c[0] {
      LexLeqTransitive(a[1..], b[1..], c[1..]);
    }
  }

  /** Newest first: every entry's timestamp is at least that of the entry after it. */
  predicate SortedDesc(h: seq<HistoryEntry>)
  {
    forall i :: 0 < i < |h| ==> LexLeq(h[i].timestamp, h[i - 1].timestamp)
  }

  /** In a list sorted newest first, any earlier entry is at least as new as any later one. */
  lemma {:induction false} SortedDescPairwise(h: seq<HistoryEntry>, i: nat, j: nat)
    requires SortedDesc(h) && i <= j < |h|
    ensures LexLeq(h[j].timestamp, h[i].timestamp)
    decreases j - i
  {
    if i == j {
      LexLeqTotal(h[i].timestamp, h[i].timestamp);
    } else {
      SortedDescPairwise(h, i, j - 1);
      LexLeqTransitive(h[j].timestamp, h[j - 1].timestamp, h[i].timestamp);
    }
  }

  /** Putting an entry at least as new as the head in front keeps the list sorted. */
  lemma SortedCons(x: HistoryEntry, t: seq<HistoryEntry>)
    requires SortedDesc(t)
    requires t != [] ==> LexLeq(t[0].timestamp, x.timestamp)
    ensures SortedDesc([x] + t)
  {
    var r := [x] + t;
    forall i | 0 < i < |r|
      ensures LexLeq(r[i].timestamp, r[i - 1].timestamp)
    {
      if i > 1 {
        assert r[i] == t[i - 1] && r[i - 1] == t[i - 2];
      }
    }
  }

  /** The tail of a sorted list is sorted. */
  lemma SortedTail(h: seq<HistoryEntry>)
    requires SortedDesc(h) && h != []
    ensures SortedDesc(h[1..])
  {
    forall i | 0 < i < |h[1..]|
      ensures LexLeq(h[1..][i].timestamp, h[1..][i - 1].timestamp)
    {
      assert h[1..][i] == h[i + 1];
    }
  }

  /** Keeping the head in front of the tail with e inserted keeps the list sorted and adds just e. */
  lemma InsertBehindHead(h: seq<HistoryEntry>, e: HistoryEntry, rest: seq<HistoryEntry>)
    requires h != [] && SortedDesc(h) && LexLeq(e.timestamp, h[0].timestamp)
    requires SortedDesc(rest) && multiset(rest) == multiset(h[1..]) + multiset{e} && |rest| == |h|
    requires h[1..] != [] && rest[0] != e ==> rest[0] == h[1]
    ensures SortedDesc([h[0]] + rest)
    ensures multiset([h[0]] + rest) == multiset(h) + multiset{e}
  {
    assert h == [h[0]] + h[1..];
    if |h| == 1 {
      assert multiset(rest) == multiset{e} && rest[0] in multiset(rest);
    } else if rest[0] != e {
      assert rest[0] == h[1];
    }
    SortedCons(h[0], rest);
  }

  /** Insert e after every entry at least as new, keeping newest-first order. */
  function InsertDesc(h: seq<HistoryEntry>, e: HistoryEntry): (r: seq<HistoryEntry>)
    requires SortedDesc(h)
    ensures SortedDesc(r)
    ensures multiset(r) == multiset(h) + multiset{e}
    ensures |r| == |h| + 1
    ensures h != [] && r[0] != e ==> r[0] == h[0]
  {
    if h == [] then [e]
    else if LexLeq(e.timestamp, h[0].timestamp) then
      SortedTail(h);
      var rest := InsertDesc(h[1..], e);
      InsertBehindHead(h, e, rest);
      [h[0]] + rest
    else
      LexLeqTotal(e.timestamp, h[0].timestamp);
      SortedCons(e, h);
      [e] + h
  }

  /**
   * Append the entry, then sort the whole list newest first. The result is
   * ordered, holds exactly the old entries and the new one, and so is one
   * entry longer.
   */
  method AppendAndSort(history: seq<HistoryEntry>, entry: HistoryEntry) returns (updated: seq<HistoryEntry>)
    ensures SortedDesc(updated)
    ensures multiset(updated) == multiset(history) + multiset{entry}
    ensures |updated| == |history| + 1 && entry in updated
  {
    var h := history + [entry];
    updated := [];
    var i := 0;
    while i < |h|
      invariant 0 <= i <= |h|
      invariant SortedDesc(updated)
      invariant multiset(updated) == multiset(h[..i])
    {
      assert h[..i + 1] == h[..i] + [h[i]];
      updated := InsertDesc(updated, h[i]);
      i := i + 1;
    }
    assert h[..|h|] == h;
    assert entry in multiset(updated);
  }
}
