/**
 * The commit rule of lab2/lab2C+D/raftwork.go:145-164: sort a copy of matchIndex and take
 * the element at n - (n/2 + 1).
 */
module Median {
  import opened Types

  function Insert(s: seq<nat>, x: nat): seq<nat> {
    if s == [] || Last(s) <= x then s + [x] else Insert(s[..|s| - 1], x) + [Last(s)]
  }

  function Sort(s: seq<nat>): seq<nat> {
    if s == [] then [] else Insert(Sort(s[..|s| - 1]), Last(s))
  }

  predicate Ascending(s: seq<nat>) {
    forall i, j :: 0 <= i < j < |s| ==> s[i] <= s[j]
  }

  function CountGe(s: seq<nat>, x: nat): (c: nat)
    ensures c <= |s|
  {
    if s == [] then 0 else CountGe(s[..|s| - 1], x) + if Last(s) >= x then 1 else 0
  }

  function MedianOf(matchIndex: seq<nat>): nat
    requires |matchIndex| > 0
  {
    SortKeeps(matchIndex, 0);
    Sort(matchIndex)[|matchIndex| - (|matchIndex| / 2 + 1)]
  }

  lemma {:induction false} InsertCounts(s: seq<nat>, x: nat, y: nat)
    ensures CountGe(Insert(s, x), y) == CountGe(s, y) + if x >= y then 1 else 0
  {
    if s == [] || Last(s) <= x {
      assert (s + [x])[..|s|] == s;
    } else {
      InsertCounts(s[..|s| - 1], x, y);
      var r := Insert(s[..|s| - 1], x);
      assert (r + [Last(s)])[..|r|] == r;
    }
  }

  lemma {:induction false} InsertElements(s: seq<nat>, x: nat)
    ensures multiset(Insert(s, x)) == multiset(s) + multiset{x}
    ensures |Insert(s, x)| == |s| + 1
  {
    if s != [] && Last(s) > x {
      InsertElements(s[..|s| - 1], x);
      assert s == s[..|s| - 1] + [Last(s)];
    }
  }

  lemma {:induction false} InsertAscends(s: seq<nat>, x: nat)
    requires Ascending(s)
    ensures Ascending(Insert(s, x))
  {
    if s != [] && Last(s) > x {
      var init := s[..|s| - 1];
      InsertAscends(init, x);
      InsertElements(init, x);
      var r := Insert(init, x);
      forall i | 0 <= i < |r|
        ensures r[i] <= Last(s)
      {
        assert r[i] in multiset(r);
        if r[i] != x {
          assert r[i] in init;
        }
      }
    }
  }

  lemma {:induction false} SortElements(s: seq<nat>)
    ensures multiset(Sort(s)) == multiset(s) && |Sort(s)| == |s|
  {
    hide Insert;
    if s != [] {
      SortElements(s[..|s| - 1]);
      InsertElements(Sort(s[..|s| - 1]), Last(s));
      assert s == s[..|s| - 1] + [Last(s)];
    }
  }

  lemma {:induction false} SortAscends(s: seq<nat>)
    ensures Ascending(Sort(s))
  {
    hide Insert;
    if s != [] {
      SortAscends(s[..|s| - 1]);
      InsertAscends(Sort(s[..|s| - 1]), Last(s));
    }
  }

  lemma {:induction false} SortCounts(s: seq<nat>, y: nat)
    ensures CountGe(Sort(s), y) == CountGe(s, y)
  {
    hide Insert;
    if s != [] {
      SortCounts(s[..|s| - 1], y);
      InsertCounts(Sort(s[..|s| - 1]), Last(s), y);
    }
  }

  /** Sorting orders the elements and changes no count. */
  lemma SortKeeps(s: seq<nat>, y: nat)
    ensures Ascending(Sort(s)) && |Sort(s)| == |s|
    ensures CountGe(Sort(s), y) == CountGe(s, y)
    ensures multiset(Sort(s)) == multiset(s)
  {
    SortElements(s);
    SortAscends(s);
    SortCounts(s, y);
  }

  /** In an ascending sequence, at least |s| - k elements reach x exactly when the k-th does. */
  lemma {:induction false} CountAt(s: seq<nat>, k: nat, x: nat)
    requires Ascending(s) && k < |s|
    ensures CountGe(s, x) >= |s| - k <==> s[k] >= x
  {
    var init := s[..|s| - 1];
    if k < |s| - 1 {
      CountAt(init, k, x);
    } else if s[k] < x {
      CountNone(s, x);
    }
  }

  lemma {:induction false} CountNone(s: seq<nat>, x: nat)
    requires forall i :: 0 <= i < |s| ==> s[i] < x
    ensures CountGe(s, x) == 0
  {
    if s != [] {
      CountNone(s[..|s| - 1], x);
    }
  }

  /** The median is the largest index that a strict majority of matchIndex has reached. */
  lemma MedianRule(matchIndex: seq<nat>, x: nat)
    requires |matchIndex| > 0
    ensures x <= MedianOf(matchIndex) <==> 2 * CountGe(matchIndex, x) > |matchIndex|
  {
    SortKeeps(matchIndex, x);
    CountAt(Sort(matchIndex), |matchIndex| - (|matchIndex| / 2 + 1), x);
  }

  function Reached(matchIndex: seq<nat>, x: nat): set<nat> {
    set p: nat | p < |matchIndex| && matchIndex[p] >= x
  }

  lemma {:induction false} ReachedSize(matchIndex: seq<nat>, x: nat)
    ensures |Reached(matchIndex, x)| == CountGe(matchIndex, x)
  {
    if matchIndex == [] {
      assert Reached(matchIndex, x) == {};
    } else {
      var n := |matchIndex| - 1;
      var init := matchIndex[..n];
      ReachedSize(init, x);
      if Last(matchIndex) >= x {
        assert Reached(matchIndex, x) == Reached(init, x) + {n};
      } else {
        assert Reached(matchIndex, x) == Reached(init, x);
      }
    }
  }

  lemma MedianMajority(matchIndex: seq<nat>)
    requires |matchIndex| > 0
    ensures Majority(Reached(matchIndex, MedianOf(matchIndex)), |matchIndex|)
  {
    MedianRule(matchIndex, MedianOf(matchIndex));
    ReachedSize(matchIndex, MedianOf(matchIndex));
  }

  // ---------- The paper's rule ----------

  /** lab2/README.md:84: N is above the commit index, on a majority, and of the current term. */
  predicate MayCommit(log: seq<Entry>, term: nat, matchIndex: seq<nat>, commit: nat, n: nat) {
    commit < n < |log| && Majority(Reached(matchIndex, n), |matchIndex|) && log[n].term == term
  }

  /** The code's single test at the median. */
  predicate TestAtMedian(log: seq<Entry>, term: nat, matchIndex: seq<nat>, commit: nat)
    requires |matchIndex| > 0
  {
    var n := MedianOf(matchIndex);
    commit < n < |log| && log[n].term == term
  }

  /**
   * On a log whose terms never decrease and never pass the current term, the single test
   * succeeds exactly when some N satisfies the paper's rule, and then the median is the largest.
   */
  lemma MedianIsPaperRule(log: seq<Entry>, term: nat, matchIndex: seq<nat>, commit: nat)
    requires |matchIndex| > 0 && MedianOf(matchIndex) < |log|
    requires forall i, j :: 0 <= i <= j < |log| ==> log[i].term <= log[j].term <= term
    ensures TestAtMedian(log, term, matchIndex, commit) <==> exists n: nat :: MayCommit(log, term, matchIndex, commit, n)
    ensures TestAtMedian(log, term, matchIndex, commit) ==>
              && MayCommit(log, term, matchIndex, commit, MedianOf(matchIndex))
              && forall n: nat :: MayCommit(log, term, matchIndex, commit, n) ==> n <= MedianOf(matchIndex)
  {
    MedianMajority(matchIndex);
    forall n: nat | MayCommit(log, term, matchIndex, commit, n)
      ensures n <= MedianOf(matchIndex)
    {
      ReachedSize(matchIndex, n);
      MedianRule(matchIndex, n);
    }
    if TestAtMedian(log, term, matchIndex, commit) {
      assert MayCommit(log, term, matchIndex, commit, MedianOf(matchIndex));
    }
  }
}
