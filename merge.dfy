/**
 * The result merger every Leaf, Router and the Root apply:
 * `sorted(docs, key=score, reverse=True)[:k]`. Python's sort is stable, also
 * with `reverse=True`, so documents with equal scores keep their input order.
 * The sort is written as an insertion sort: each document, taken in input
 * order, goes after every document already placed whose score is at least its own.
 */
module Merge {
  import opened Values

  /** Non-increasing by score. */
  predicate SortedDesc(s: seq<Scored>) {
    forall i, j :: 0 <= i < j < |s| ==> s[i].score >= s[j].score
  }

  /** The documents of `s` with score `v`, in order. */
  function WithScore(s: seq<Scored>, v: int): (r: seq<Scored>)
    ensures |r| <= |s|
  {
    if s == [] then []
    else WithScore(s[..|s| - 1], v) + Own(s[|s| - 1], v)
  }

  function Insert(d: Scored, s: seq<Scored>): (r: seq<Scored>)
    ensures |r| == |s| + 1
  {
    if s == [] then [d]
    else if s[0].score >= d.score then [s[0]] + Insert(d, s[1..])
    else [d] + s
  }

  /** `sorted(s, key=score, reverse=True)` */
  function SortByScoreDesc(s: seq<Scored>): (r: seq<Scored>)
    ensures |r| == |s|
  {
    if s == [] then [] else Insert(s[|s| - 1], SortByScoreDesc(s[..|s| - 1]))
  }

  /** `sorted(docs, key=score, reverse=True)[:k]` */
  function MergeTopK(docs: seq<Scored>, k: int): seq<Scored> {
    PySliceTo(SortByScoreDesc(docs), k)
  }

  predicate IsPrefix(a: seq<Scored>, b: seq<Scored>) {
    |a| <= |b| && a == b[..|a|]
  }

  /** How many documents survive the cut. */
  function KeptCount(n: nat, k: int): (c: nat)
    ensures c <= n
  {
    if k >= 0 then (if k <= n then k else n) else if -k <= n then n + k else 0
  }

  // ---------------------------------------------------------------------------
  // Insertion

  lemma {:induction false} InsertMultiset(d: Scored, s: seq<Scored>)
    ensures multiset(Insert(d, s)) == multiset(s) + multiset{d}
  {
    if s != [] && s[0].score >= d.score {
      InsertMultiset(d, s[1..]);
      assert Insert(d, s) == [s[0]] + Insert(d, s[1..]);
      assert s == [s[0]] + s[1..];
      assert multiset(s) == multiset{s[0]} + multiset(s[1..]);
    }
  }

  lemma {:induction false} InsertSorted(d: Scored, s: seq<Scored>)
    requires SortedDesc(s)
    ensures SortedDesc(Insert(d, s))
  {
    if s != [] && s[0].score >= d.score {
      InsertSorted(d, s[1..]);
      InsertMultiset(d, s[1..]);
      var r := Insert(d, s[1..]);
      forall x | x in r ensures s[0].score >= x.score {
        assert x in multiset(r);
        if x != d {
          assert x in multiset(s[1..]);
        }
      }
    }
  }

  /** A document whose score is at most every score of `s` goes last. */
  lemma {:induction false} InsertAtEnd(d: Scored, s: seq<Scored>)
    requires forall i :: 0 <= i < |s| ==> s[i].score >= d.score
    ensures Insert(d, s) == s + [d]
  {
    if s != [] {
      InsertAtEnd(d, s[1..]);
    }
  }

  lemma {:induction false} WithScoreAppend(s: seq<Scored>, t: seq<Scored>, v: int)
    ensures WithScore(s + t, v) == WithScore(s, v) + WithScore(t, v)
    decreases |t|
  {
    if t == [] {
      assert s + t == s;
    } else {
      assert (s + t)[..|s + t| - 1] == s + t[..|t| - 1];
      WithScoreAppend(s, t[..|t| - 1], v);
    }
  }

  lemma {:induction false} WithScoreNone(s: seq<Scored>, v: int)
    requires forall i :: 0 <= i < |s| ==> s[i].score != v
    ensures WithScore(s, v) == []
  {
    if s != [] {
      WithScoreNone(s[..|s| - 1], v);
    }
  }

  lemma WithScoreSingle(d: Scored, v: int)
    ensures WithScore([d], v) == Own(d, v)
  {
    assert [d][..0] == [];
  }

  function Own(d: Scored, v: int): seq<Scored> {
    if d.score == v then [d] else []
  }

  lemma SortedTail(s: seq<Scored>)
    requires SortedDesc(s) && s != []
    ensures SortedDesc(s[1..])
  {
    forall i, j | 0 <= i < j < |s[1..]| ensures s[1..][i].score >= s[1..][j].score {
      assert s[1..][i] == s[i + 1] && s[1..][j] == s[j + 1];
    }
  }

  /** Inserting into a sorted sequence puts `d` after every earlier document of its score. */
  lemma {:induction false} WithScoreInsert(d: Scored, s: seq<Scored>, v: int)
    requires SortedDesc(s)
    ensures WithScore(Insert(d, s), v) == WithScore(s, v) + Own(d, v)
  {
    if s == [] {
      WithScoreSingle(d, v);
    } else if s[0].score >= d.score {
      SortedTail(s);
      WithScoreInsert(d, s[1..], v);
      WithScoreInsertBehind(d, s, v);
    } else {
      WithScoreInsertFront(d, s, v);
    }
  }

  lemma {:induction false} WithScoreInsertBehind(d: Scored, s: seq<Scored>, v: int)
    requires s != [] && s[0].score >= d.score
    requires WithScore(Insert(d, s[1..]), v) == WithScore(s[1..], v) + Own(d, v)
    ensures WithScore(Insert(d, s), v) == WithScore(s, v) + Own(d, v)
  {
    var rest := Insert(d, s[1..]);
    assert Insert(d, s) == [s[0]] + rest;
    WithScoreAppend([s[0]], rest, v);
    WithScoreAppend([s[0]], s[1..], v);
    assert s == [s[0]] + s[1..];
    calc {
      WithScore(Insert(d, s), v);
      WithScore([s[0]], v) + WithScore(rest, v);
      WithScore([s[0]], v) + (WithScore(s[1..], v) + Own(d, v));
      (WithScore([s[0]], v) + WithScore(s[1..], v)) + Own(d, v);
      WithScore(s, v) + Own(d, v);
    }
  }

  lemma WithScoreInsertFront(d: Scored, s: seq<Scored>, v: int)
    requires SortedDesc(s) && s != [] && s[0].score < d.score
    ensures WithScore(Insert(d, s), v) == WithScore(s, v) + Own(d, v)
  {
    assert Insert(d, s) == [d] + s;
    forall i | 0 <= i < |s| ensures s[i].score < d.score {
      assert s[0].score >= s[i].score;
    }
    WithScoreBelow(d, s, v);
  }

  lemma WithScoreBelow(d: Scored, s: seq<Scored>, v: int)
    requires forall i :: 0 <= i < |s| ==> s[i].score < d.score
    ensures WithScore([d] + s, v) == WithScore(s, v) + Own(d, v)
  {
    WithScoreAppend([d], s, v);
    WithScoreSingle(d, v);
    if d.score == v {
      WithScoreNone(s, v);
    }
  }

  // ---------------------------------------------------------------------------
  // The sort

  lemma {:induction false} SortPermutes(s: seq<Scored>)
    ensures multiset(SortByScoreDesc(s)) == multiset(s)
  {
    if s != [] {
      var init, last := s[..|s| - 1], s[|s| - 1];
      SortPermutes(init);
      InsertMultiset(last, SortByScoreDesc(init));
      assert SortByScoreDesc(s) == Insert(last, SortByScoreDesc(init));
      assert s == init + [last];
      assert multiset(s) == multiset(init) + multiset{last};
    }
  }

  lemma {:induction false} SortSorts(s: seq<Scored>)
    ensures SortedDesc(SortByScoreDesc(s))
  {
    if s != [] {
      SortSorts(s[..|s| - 1]);
      InsertSorted(s[|s| - 1], SortByScoreDesc(s[..|s| - 1]));
    }
  }

  /** Stability: for every score, its documents appear in input order. */
  lemma {:induction false} SortStable(s: seq<Scored>, v: int)
    ensures WithScore(SortByScoreDesc(s), v) == WithScore(s, v)
  {
    if s != [] {
      var init, last := s[..|s| - 1], s[|s| - 1];
      SortStable(init, v);
      SortSorts(init);
      WithScoreInsert(last, SortByScoreDesc(init), v);
    }
  }

  /** Sorting an already sorted sequence changes nothing. */
  lemma {:induction false} SortOfSorted(s: seq<Scored>)
    requires SortedDesc(s)
    ensures SortByScoreDesc(s) == s
  {
    if s != [] {
      var init := s[..|s| - 1];
      SortOfSorted(init);
      InsertAtEnd(s[|s| - 1], init);
      assert init + [s[|s| - 1]] == s;
    }
  }

  // ---------------------------------------------------------------------------
  // What the merge promises

  /**
   * The merge returns the first `KeptCount` documents of the stable
   * score-descending order: non-increasing scores, taken from the input
   * (a sub-multiset), equal scores in input order, and no dropped
   * document scoring above a kept one.
   */
  lemma MergeTopKSpec(docs: seq<Scored>, k: int)
    ensures var r := MergeTopK(docs, k);
      && |r| == KeptCount(|docs|, k)
      && SortedDesc(r)
      && multiset(r) <= multiset(docs)
      && r == SortByScoreDesc(docs)[..|r|]
      && (forall x, y :: x in r && y in SortByScoreDesc(docs)[|r|..] ==> x.score >= y.score)
      && multiset(r) + multiset(SortByScoreDesc(docs)[|r|..]) == multiset(docs)
  {
    var sorted := SortByScoreDesc(docs);
    var r := MergeTopK(docs, k);
    SortSorts(docs);
    SortPermutes(docs);
    SortedSplit(sorted, |r|);
    assert r == sorted[..|r|];
  }

  /** Cutting a sorted sequence: a sorted head, scoring at least the tail, and nothing lost. */
  lemma SortedSplit(s: seq<Scored>, n: nat)
    requires SortedDesc(s) && n <= |s|
    ensures SortedDesc(s[..n])
    ensures forall x, y :: x in s[..n] && y in s[n..] ==> x.score >= y.score
    ensures multiset(s[..n]) + multiset(s[n..]) == multiset(s)
  {
    forall x, y | x in s[..n] && y in s[n..] ensures x.score >= y.score {
      var i :| 0 <= i < n && s[..n][i] == x;
      var j :| 0 <= j < |s| - n && s[n..][j] == y;
      assert s[i] == x && s[n + j] == y;
    }
    assert s == s[..n] + s[n..];
  }

  /** With `k >= 0` the merge keeps `min(k, n)` documents. */
  lemma MergeTopKLength(docs: seq<Scored>, k: int)
    requires k >= 0
    ensures |MergeTopK(docs, k)| == if k <= |docs| then k else |docs|
  {
  }

  /** Stability of the merge: the kept documents of each score are the first ones of that score in the input. */
  lemma MergeTopKStable(docs: seq<Scored>, k: int, v: int)
    ensures IsPrefix(WithScore(MergeTopK(docs, k), v), WithScore(docs, v))
  {
    var sorted := SortByScoreDesc(docs);
    var r := MergeTopK(docs, k);
    assert sorted == r + sorted[|r|..];
    WithScoreAppend(r, sorted[|r|..], v);
    SortStable(docs, v);
  }

  /** Merging a merge again with the same non-negative bound changes nothing. */
  lemma MergeTopKIdempotent(docs: seq<Scored>, k: int)
    requires k >= 0
    ensures MergeTopK(MergeTopK(docs, k), k) == MergeTopK(docs, k)
  {
    var r := MergeTopK(docs, k);
    MergeTopKSpec(docs, k);
    SortOfSorted(r);
  }

  /** Every kept document was among the input. */
  lemma MergeTopKSubset(docs: seq<Scored>, k: int, x: Scored)
    requires x in MergeTopK(docs, k)
    ensures x in docs
  {
    MergeTopKSpec(docs, k);
    assert x in multiset(MergeTopK(docs, k));
  }

  /** The merge's output is sorted and, for `k >= 0`, holds at most `k` documents. */
  lemma MergeTopKBounded(docs: seq<Scored>, k: int)
    ensures SortedDesc(MergeTopK(docs, k))
    ensures k >= 0 ==> |MergeTopK(docs, k)| <= k
  {
    MergeTopKSpec(docs, k);
  }
}
