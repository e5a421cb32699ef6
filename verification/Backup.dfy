/**
 * Fast conflict backup between an uncompacted leader and one follower, compacted or not
 * (lab2/lab2C+D/raft.go:230-262, raftwork.go:60-127): where a rejection sends the leader next,
 * and exactly when the exchanges end in success.
 */
module Backup {
  import opened Types
  import opened LogStore
  import opened Rpc
  import opened Median
  import opened Handlers
  import opened Cluster
  import opened Refinement
  import opened Lockstep
  import A = Replication
  import S = ReplicationSteps
  import M = RefinementSteps
  import Bounds
  import Safety

  // ---------- The two logs ----------

  /** The highest index through which the two logs are the same. */
  function Shared(f: seq<Entry>, l: seq<Entry>): (g: int)
    ensures g < |f| && g < |l| && -1 <= g
    ensures Agree(f, l, g + 1)
    ensures g + 1 < |f| && g + 1 < |l| ==> f[g + 1] != l[g + 1]
  {
    SharedFrom(f, l, 0)
  }

  function SharedFrom(f: seq<Entry>, l: seq<Entry>, k: nat): (g: int)
    requires Agree(f, l, k)
    ensures k - 1 <= g < |f| && g < |l|
    ensures Agree(f, l, g + 1)
    ensures g + 1 < |f| && g + 1 < |l| ==> f[g + 1] != l[g + 1]
    decreases |f| - k
  {
    if k < |f| && k < |l| && f[k] == l[k] then SharedFrom(f, l, k + 1) else k - 1
  }

  predicate TermsAscend(log: seq<Entry>) {
    forall i, j :: 0 <= i <= j < |log| ==> log[i].term <= log[j].term
  }

  /** The follower's log with what it has compacted taken from the leader. */
  function Whole(l: Log, f: Log): seq<Entry> {
    if FirstIndex(f) < |l| then l[..FirstIndex(f) + 1] + f[1..] else f
  }

  /** An uncompacted leader's log and that of a follower which has compacted nothing the leader lacks. */
  predicate LogPair(l: Log, f: Log) {
    && Contiguous(l) && Contiguous(f) && l[0] == Placeholder
    && FirstIndex(f) < |l| && f[0] == Entry(FirstIndex(f), l[FirstIndex(f)].term, Nil)
    && (forall i :: 0 < i < |l| ==> l[i].term > 0) && (forall i :: 0 < i < |f| ==> f[i].term > 0)
    && TermsAscend(l) && TermsAscend(f) && TermsDecide(Whole(l, f), l)
  }

  lemma WholeEntries(l: Log, f: Log)
    requires FirstIndex(f) < |l|
    ensures var w, k := Whole(l, f), FirstIndex(f);
            && |w| == k + |f| && w[k + 1..] == f[1..]
            && (forall i :: 0 <= i <= k ==> w[i] == l[i])
            && (forall i :: k < i < |w| ==> w[i] == f[i - k])
  {
    var w, k := Whole(l, f), FirstIndex(f);
    assert w[k + 1..] == f[1..];
  }

  lemma WholeIs(l: Log, f: Log)
    requires LogPair(l, f)
    ensures var w, k := Whole(l, f), FirstIndex(f);
            && |w| == k + |f| && Agree(w, l, k + 1) && Numbered(w) && Numbered(l)
            && (forall i :: k <= i < |w| ==> w[i].term == TermAt(f, i))
            && f == Compact(w, k) && LastLog(f).index == |w| - 1
  {
    hide Whole, TermsDecide, TermsAscend;
    WholeEntries(l, f);
    var w, k := Whole(l, f), FirstIndex(f);
    assert f == [f[0]] + f[1..];
  }

  // ---------- One probe ----------

  /** The follower takes a request that probes the entry before `next`. */
  predicate Accepts(l: Log, f: Log, next: nat)
    requires 0 < next <= |l|
  {
    next - 1 >= FirstIndex(f) && MatchLog(f, l[next - 1].term, next - 1)
  }

  /** The conflict index and term of a rejection. */
  datatype Hint = Hint(index: int, term: int)

  function Objection(f: Log, prev: nat): Hint {
    if prev < FirstIndex(f) then Hint(0, 0)
    else if !InLog(f, prev) then Hint(LastLog(f).index + 1, -1)
    else Hint(ScanBack(f, prev - 1, TermAt(f, prev)), TermAt(f, prev))
  }

  /** Where the leader goes after a rejection. */
  function NextTry(l: Log, f: Log, next: nat): int
    requires 0 < next <= |l|
  {
    var hint := Objection(f, next - 1);
    if hint.term == -1 then hint.index
    else
      var i := FindTerm(l, next - 1, hint.term);
      if i >= FirstIndex(l) then i + 1 else hint.index
  }

  /** These are what the handlers do. */
  lemma ProbeIs(l: Node, f: Node, next: nat)
    requires LogPair(l.logs, f.logs) && f.currentTerm <= l.currentTerm && 0 < next <= |l.logs|
    ensures var req := GenAppend(l, next - 1);
            var (f', resp) := HandleAppend(f, req);
            && req.prevTerm == l.logs[next - 1].term && req.entries == l.logs[next..] && req.prevIndex == next - 1
            && resp.success == Accepts(l.logs, f.logs, next)
            && (!resp.success ==>
                  && resp.term == l.currentTerm && NextAfter(l.logs, req, resp) == NextTry(l.logs, f.logs, next)
                  && f' == Persist(ChangeState(Adopt(f, l.currentTerm), Follower)))
  {
    hide LogPair, Splice, ScanBack, FindTerm;
    PairBasics(l.logs, f.logs);
  }

  lemma PairBasics(l: Log, f: Log)
    requires LogPair(l, f)
    ensures FirstIndex(l) == 0 && Contiguous(f) && Contiguous(l) && LastLog(f).index == FirstIndex(f) + |f| - 1
  {
  }

  /**
   * After a rejection inside the follower's log the leader has moved strictly down, and the next
   * index is still at or above everything the two logs share: at most one below the shared part.
   */
  lemma RejectionMoves(l: Log, f: Log, next: nat)
    requires LogPair(l, f) && FirstIndex(f) < next <= |l| && !Accepts(l, f, next)
    ensures FirstIndex(f) <= Shared(Whole(l, f), l) <= NextTry(l, f, next) <= next - 1
    ensures 1 < next
  {
    hide LogPair, TermsDecide, Whole, Compact, TermsAscend, ScanBack, FindTerm, KnowsTerm;
    var w, k, prev := Whole(l, f), FirstIndex(f), next - 1;
    var g := Shared(w, l);
    WholeIs(l, f);
    PairBasics(l, f);
    assert l[k].term == TermAt(f, k);
    assert g >= k;
    assert prev > k;
    if prev < |w| {
      ConflictMoves(l, f, prev, g);
    }
  }

  predicate KnowsTerm(l: Log, upTo: int, term: nat) {
    exists i :: 0 <= i <= upTo && i < |l| && l[i].term == term
  }

  lemma FindKnows(l: Log, f: Log, prev: nat, t: nat)
    requires LogPair(l, f) && prev < |l|
    ensures var i := FindTerm(l, prev, t);
            if KnowsTerm(l, prev, t)
            then 0 <= i <= prev && l[i].term == t && forall j :: i < j <= prev ==> l[j].term != t
            else i == -1 && forall j :: 0 <= j <= prev ==> l[j].term != t
  {
    hide LogPair;
    PairBasics(l, f);
    assert forall j :: 0 <= j <= prev ==> TermAt(l, j) == l[j].term;
  }

  lemma ConflictMoves(l: Log, f: Log, prev: nat, g: int)
    requires LogPair(l, f) && FirstIndex(f) < prev < |l| && prev < |Whole(l, f)| && TermAt(f, prev) != l[prev].term
    requires g == Shared(Whole(l, f), l)
    ensures g <= NextTry(l, f, prev + 1) <= prev
    ensures var t := TermAt(f, prev);
            if KnowsTerm(l, prev, t) then NextTry(l, f, prev + 1) > FirstIndex(f)
            else NextTry(l, f, prev + 1) == ScanBack(f, prev - 1, t) >= FirstIndex(f)
  {
    hide LogPair, TermsDecide, Whole, Compact, TermsAscend, ScanBack, FindTerm, KnowsTerm, TermAt, Contiguous, Shared;
    WholeSize(l, f);
    PairBasics(l, f);
    var t := TermAt(f, prev);
    FindKnows(l, f, prev, t);
    assert Objection(f, prev) == Hint(ScanBack(f, prev - 1, t), t);
    if KnowsTerm(l, prev, t) {
      FoundBehind(l, f, prev, g, FindTerm(l, prev, t));
    } else {
      NotFound(l, f, prev, g);
    }
  }

  lemma WholeSize(l: Log, f: Log)
    requires LogPair(l, f)
    ensures |Whole(l, f)| == FirstIndex(f) + |f|
  {
  }

  /** The leader's last entry of the conflicting term is at or above everything shared. */
  lemma FoundBehind(l: Log, f: Log, prev: nat, g: int, i: nat)
    requires LogPair(l, f) && FirstIndex(f) < prev < |l| && prev < |Whole(l, f)| && TermAt(f, prev) != l[prev].term
    requires g == Shared(Whole(l, f), l) && i <= prev && l[i].term == TermAt(f, prev)
    requires forall j :: i < j <= prev ==> l[j].term != TermAt(f, prev)
    ensures FirstIndex(f) <= i < prev && g <= i
  {
    hide LogPair, TermsDecide, Whole, Compact;
    WholeIs(l, f);
    PairTerms(l, f);
    var w, k, t := Whole(l, f), FirstIndex(f), TermAt(f, prev);
    assert w[prev].term == t;
    assert g < prev && g >= k;
    SharedBehind(w, l, prev, i, k);
    SharedBehind(w, l, prev, i, g);
  }

  /** An index where the logs agree is not past the leader's last entry of the term. */
  lemma SharedBehind(w: seq<Entry>, l: seq<Entry>, prev: nat, i: nat, x: nat)
    requires TermsAscend(w) && TermsAscend(l) && i <= prev && x <= prev && prev < |w| && prev < |l| && w[x] == l[x]
    requires l[i].term == w[prev].term && forall j :: i < j <= prev ==> l[j].term != w[prev].term
    ensures x <= i
  {
    assert w[x].term <= w[prev].term;
  }

  /** Without it, the run of that term starts above everything shared. */
  lemma NotFound(l: Log, f: Log, prev: nat, g: int)
    requires LogPair(l, f) && FirstIndex(f) < prev < |l| && prev < |Whole(l, f)|
    requires g == Shared(Whole(l, f), l) && forall j :: 0 <= j <= prev ==> l[j].term != TermAt(f, prev)
    ensures FirstIndex(f) <= ScanBack(f, prev - 1, TermAt(f, prev)) < prev && g <= ScanBack(f, prev - 1, TermAt(f, prev))
  {
    hide LogPair, TermsDecide, Whole, Compact, TermsAscend;
    WholeIs(l, f);
    PairBasics(l, f);
    var w, k, t := Whole(l, f), FirstIndex(f), TermAt(f, prev);
    var r := ScanBack(f, prev - 1, t);
    assert w[prev].term == t;
    assert k <= g < prev;
    assert w[k] == l[k] && TermAt(f, k) == w[k].term;
    assert w[g] == l[g] && TermAt(f, g) == w[g].term;
  }

  lemma PairTerms(l: Log, f: Log)
    requires LogPair(l, f)
    ensures TermsAscend(l) && TermsAscend(f) && TermsAscend(Whole(l, f))
  {
    hide TermsDecide, Whole;
    WholeEntries(l, f);
    var w, k := Whole(l, f), FirstIndex(f);
    forall i, j | 0 <= i <= j < |w|
      ensures w[i].term <= w[j].term
    {
      var m := Max(i, k);
      assert i <= k ==> w[i].term <= l[k].term == f[0].term;
      assert j > k ==> f[m - k].term <= f[j - k].term;
    }
  }

  /**
   * A rejection inside the follower's log sends the leader to or below its first index exactly
   * when the leader has no entry of the conflicting term at or below the probe and that term's
   * run starts right after the follower's placeholder.
   */
  lemma RejectionLands(l: Log, f: Log, next: nat)
    requires LogPair(l, f) && FirstIndex(f) < next <= |l| && !Accepts(l, f, next)
    ensures NextTry(l, f, next) <= FirstIndex(f) <==>
            && InLog(f, next - 1)
            && !KnowsTerm(l, next - 1, TermAt(f, next - 1))
            && TermAt(f, FirstIndex(f) + 1) == TermAt(f, next - 1)
  {
    hide LogPair, TermsDecide, Whole, Compact, TermsAscend, ScanBack, FindTerm, KnowsTerm;
    var w, k, prev := Whole(l, f), FirstIndex(f), next - 1;
    WholeIs(l, f);
    PairBasics(l, f);
    assert l[k].term == TermAt(f, k);
    assert prev > k;
    if prev < |w| {
      ConflictMoves(l, f, prev, Shared(w, l));
      PairTerms(l, f);
      RunStart(f, prev);
    }
  }

  /** On ascending terms the scan stops at the placeholder exactly when the run starts right after it. */
  lemma RunStart(f: Log, prev: int)
    requires Contiguous(f) && TermsAscend(f) && FirstIndex(f) < prev && InLog(f, prev)
    ensures ScanBack(f, prev - 1, TermAt(f, prev)) <= FirstIndex(f) <==> TermAt(f, FirstIndex(f) + 1) == TermAt(f, prev)
  {
    hide ScanBack;
    var k, t := FirstIndex(f), TermAt(f, prev);
    var r := ScanBack(f, prev - 1, t);
    assert k < r ==> TermAt(f, k + 1) <= TermAt(f, r) <= t;
    assert r <= k && k + 1 < prev ==> TermAt(f, k + 1) == t;
  }

  // ---------- The whole search ----------

  /** Probing from `next` on reaches a request the follower takes. */
  predicate Settles(l: Log, f: Log, next: nat)
    requires LogPair(l, f) && next <= |l|
    decreases if next == 0 then 1 else if next == 1 then 0 else next
  {
    if next <= FirstIndex(f) then FirstIndex(f) == 0 && Settles(l, f, 1)
    else
      Accepts(l, f, next) ||
      (RejectionMoves(l, f, next);
       Settles(l, f, NextTry(l, f, next)))
  }

  /** How many exchanges it takes, the one with the snapshot at index 0 included. */
  function Requests(l: Log, f: Log, next: nat): (r: nat)
    requires LogPair(l, f) && next <= |l| && Settles(l, f, next)
    ensures 0 < r <= Max(next, 1) + 1
    decreases if next == 0 then 1 else if next == 1 then 0 else next
  {
    if next == 0 then 1 + Requests(l, f, 1)
    else if Accepts(l, f, next) then 1
    else
      RejectionMoves(l, f, next);
      1 + Requests(l, f, NextTry(l, f, next))
  }

  /**
   * It always settles for a follower that has compacted nothing; and for one whose log ends at
   * its placeholder, or goes on with a term the leader has up to there, such as the leader's
   * own next entry.
   */
  lemma {:induction false} SettlesWhen(l: Log, f: Log, next: nat)
    requires LogPair(l, f) && next <= |l| && (FirstIndex(f) == 0 || FirstIndex(f) < next)
    requires FirstIndex(f) == 0 || |f| == 1 || KnowsTerm(l, FirstIndex(f) + 1, f[1].term)
    ensures Settles(l, f, next)
    decreases if next == 0 then 1 else if next == 1 then 0 else next
  {
    hide LogPair, KnowsTerm, Accepts;
    if next <= FirstIndex(f) {
      SettlesWhen(l, f, 1);
    } else if !Accepts(l, f, next) {
      RejectionMoves(l, f, next);
      StaysInside(l, f, next);
      SettlesWhen(l, f, NextTry(l, f, next));
    }
  }

  lemma StaysInside(l: Log, f: Log, next: nat)
    requires LogPair(l, f) && FirstIndex(f) < next <= |l| && !Accepts(l, f, next)
    requires FirstIndex(f) == 0 || |f| == 1 || KnowsTerm(l, FirstIndex(f) + 1, f[1].term)
    ensures FirstIndex(f) == 0 || FirstIndex(f) < NextTry(l, f, next)
  {
    RejectionLands(l, f, next);
    WholeIs(l, f);
  }

  // ---------- On the cluster ----------

  predicate Ready(c: Cluster, p: nat, q: nat) {
    && MayTalk(c, p, q)
    && var l, f := c.nodes[p], c.nodes[q];
       && l.role == Leader && q < |l.nextIndex| && q < |l.matchIndex| && 0 <= l.nextIndex[q] <= |l.logs|
       && LogPair(l.logs, f.logs) && f.currentTerm <= l.currentTerm
  }

  /** The follower has the leader's log, as far as it has not compacted it. */
  predicate HasLog(f: Log, l: Log) {
    forall i :: FirstIndex(f) < i < |l| ==> InLog(f, i) && f[i - FirstIndex(f)] == l[i]
  }

  predicate SettlesAt(c: Cluster, p: nat, q: nat)
    requires Ready(c, p, q)
  {
    Settles(c.nodes[p].logs, c.nodes[q].logs, c.nodes[p].nextIndex[q])
  }

  /** The leader's next message to q is a request that q takes. */
  predicate ProbeAccepted(c: Cluster, p: nat, q: nat)
    requires Ready(c, p, q)
  {
    var next := c.nodes[p].nextIndex[q];
    next > 0 && Accepts(c.nodes[p].logs, c.nodes[q].logs, next)
  }

  lemma RejectedExchange(c: Cluster, p: nat, q: nat)
    requires Ready(c, p, q) && c.nodes[p].nextIndex[q] > 0 && !ProbeAccepted(c, p, q)
    ensures var c', l, f := Exchange(c, p, q), c.nodes[p], c.nodes[q];
            && |c'.nodes| == |c.nodes|
            && c'.nodes[q].logs == f.logs && c'.nodes[q].currentTerm == l.currentTerm
            && c'.nodes[p] == l.(nextIndex := l.nextIndex[q := NextTry(l.logs, f.logs, l.nextIndex[q])])
  {
    hide HandleAppend, NextAfter, NextTry, Accepts, LogPair, Exchange, ExchangeSteps;
    var l, f := c.nodes[p], c.nodes[q];
    var next := l.nextIndex[q];
    PairBasics(l.logs, f.logs);
    ProbeIs(l, f, next);
    AppendExchange(c, p, q, GenAppend(l, next - 1));
  }

  /** At next index 0 the leader sends its snapshot, which covers nothing here, and goes to 1. */
  lemma BouncedExchange(c: Cluster, p: nat, q: nat)
    requires Ready(c, p, q) && c.nodes[p].nextIndex[q] == 0
    ensures ReplicateOneRound(c.nodes[p], q) == Snap(GenSnap(c.nodes[p]))
    ensures var c', l, f := Exchange(c, p, q), c.nodes[p], c.nodes[q];
            && |c'.nodes| == |c.nodes|
            && c'.nodes[q].logs == f.logs && c'.nodes[q].pending == f.pending && c'.nodes[q].currentTerm == l.currentTerm
            && c'.nodes[p] == l.(nextIndex := l.nextIndex[q := 1], matchIndex := l.matchIndex[q := 0])
  {
    hide LogPair, Exchange, ExchangeSteps;
    var l, f := c.nodes[p], c.nodes[q];
    PairBasics(l.logs, f.logs);
    SnapExchange(c, p, q, GenSnap(l));
  }

  /** One accepted request hands over the rest of the leader's log. */
  lemma AcceptedExchange(c: Cluster, p: nat, q: nat)
    requires Ready(c, p, q) && ProbeAccepted(c, p, q)
    ensures var c', l, f := Exchange(c, p, q), c.nodes[p], c.nodes[q];
            && |c'.nodes| == |c.nodes|
            && c'.nodes[p].logs == l.logs && c'.nodes[p].matchIndex == l.matchIndex[q := |l.logs| - 1]
            && c'.nodes[p].nextIndex == l.nextIndex[q := |l.logs|]
            && c'.nodes[p].role == Leader && c'.nodes[p].currentTerm == l.currentTerm
            && HasLog(c'.nodes[q].logs, l.logs) && FirstIndex(c'.nodes[q].logs) == FirstIndex(f.logs)
  {
    hide HandleAppend, NextAfter, NextTry, Accepts, LogPair, Exchange, ExchangeSteps, LeaderCommit, HasLog;
    var l, f := c.nodes[p], c.nodes[q];
    var next := l.nextIndex[q];
    var a := GenAppend(l, next - 1);
    PairBasics(l.logs, f.logs);
    ProbeIs(l, f, next);
    AppendExchange(c, p, q, a);
    Taken(l, f, next);
    LeaderCommitKeeps(l.(matchIndex := l.matchIndex[q := |l.logs| - 1], nextIndex := l.nextIndex[q := |l.logs|]));
  }

  lemma LeaderCommitKeeps(n: Node)
    ensures LeaderCommit(n) == n.(commitIndex := LeaderCommit(n).commitIndex)
  {
    hide MedianOf, MatchLog;
  }

  lemma Taken(l: Node, f: Node, next: nat)
    requires LogPair(l.logs, f.logs) && f.currentTerm <= l.currentTerm && 0 < next <= |l.logs| && Accepts(l.logs, f.logs, next)
    ensures var f' := HandleAppend(f, GenAppend(l, next - 1)).0;
            HasLog(f'.logs, l.logs) && FirstIndex(f'.logs) == FirstIndex(f.logs)
  {
    hide LogPair, HandleAppend, Splice, Compact, HasLog;
    var a := GenAppend(l, next - 1);
    PairBasics(l.logs, f.logs);
    ProbeIs(l, f, next);
    M.AcceptFields(f, a);
    SplicedHas(l.logs, f.logs, next);
  }

  lemma SplicedHas(l: Log, f: Log, next: nat)
    requires LogPair(l, f) && 0 < next <= |l| && Accepts(l, f, next)
    ensures HasLog(Splice(f, l[next..]), l) && FirstIndex(Splice(f, l[next..])) == FirstIndex(f)
  {
    hide LogPair, Splice, Compact, Whole, TermsDecide, MatchLog, TermAt, HasLog, Numbered, Contiguous;
    var k, w := FirstIndex(f), Whole(l, f);
    WholeIs(l, f);
    PairDecides(l, f, next - 1);
    SpliceCompact(w, k, l, next);
    CompactHas(if l <= w then w else l, l, k);
  }

  lemma CompactHas(log: seq<Entry>, l: Log, k: nat)
    requires l <= log && k < |l| && Numbered(log)
    ensures HasLog(Compact(log, k), l) && FirstIndex(Compact(log, k)) == k
  {
    hide Compact;
    CompactLookup(log, k);
  }

  lemma PairDecides(l: Log, f: Log, prev: nat)
    requires LogPair(l, f) && FirstIndex(f) <= prev < |l| && MatchLog(f, l[prev].term, prev)
    ensures TermsDecide(Whole(l, f), l) && Agree(Whole(l, f), l, prev + 1)
  {
    hide Whole, Compact, Numbered, TermsAscend, Contiguous;
    WholeIs(l, f);
    assert Whole(l, f)[prev].term == l[prev].term;
  }

  /** Exchanges counted from the front. */
  lemma {:induction false} ExchangesShift(c: Cluster, p: nat, q: nat, j: nat)
    requires p < |c.nodes| && q < |c.nodes|
    ensures |Exchange(c, p, q).nodes| == |c.nodes|
    ensures Exchanges(c, p, q, j + 1) == Exchanges(Exchange(c, p, q), p, q, j)
    decreases j
  {
    hide Exchange;
    ExchangeSize(c, p, q);
    if j > 0 {
      ExchangesShift(c, p, q, j - 1);
    }
  }

  lemma ExchangeSize(c: Cluster, p: nat, q: nat)
    requires p < |c.nodes| && q < |c.nodes|
    ensures |Exchange(c, p, q).nodes| == |c.nodes|
  {
  }

  /** One exchange that is not accepted leaves the pair as it was, one probe further. */
  lemma UnsettledExchange(c: Cluster, p: nat, q: nat)
    requires Ready(c, p, q) && !ProbeAccepted(c, p, q)
    requires c.nodes[p].nextIndex[q] > 0 ==> 0 <= NextTry(c.nodes[p].logs, c.nodes[q].logs, c.nodes[p].nextIndex[q]) <= |c.nodes[p].logs|
    ensures var c' := Exchange(c, p, q);
            && Ready(c', p, q) && c'.nodes[p].logs == c.nodes[p].logs && c'.nodes[q].logs == c.nodes[q].logs
            && c'.nodes[p].matchIndex[q] <= c.nodes[p].matchIndex[q]
            && c'.nodes[p].nextIndex[q] ==
               if c.nodes[p].nextIndex[q] == 0 then 1 else NextTry(c.nodes[p].logs, c.nodes[q].logs, c.nodes[p].nextIndex[q])
  {
    hide NextTry, Accepts, LogPair, Exchange;
    if c.nodes[p].nextIndex[q] == 0 {
      BouncedExchange(c, p, q);
    } else {
      RejectedExchange(c, p, q);
    }
  }

  /** After j exchanges the leader's next message is a request that q takes. */
  predicate AcceptedAfter(c: Cluster, p: nat, q: nat, j: nat)
    requires p < |c.nodes| && q < |c.nodes|
  {
    Ready(Exchanges(c, p, q, j), p, q) && ProbeAccepted(Exchanges(c, p, q, j), p, q)
  }

  /**
   * If the search settles, then after as many exchanges as it counts, at most max(nextIndex, 1) + 1,
   * the leader knows that the follower has its whole log, and the follower has it; and no
   * request before the last of them was taken.
   */
  lemma {:induction false} SettlesInExchanges(c: Cluster, p: nat, q: nat) returns (j: nat)
    requires Ready(c, p, q) && SettlesAt(c, p, q)
    ensures j == Requests(c.nodes[p].logs, c.nodes[q].logs, c.nodes[p].nextIndex[q]) <= Max(c.nodes[p].nextIndex[q], 1) + 1
    ensures var c', l := Exchanges(c, p, q, j), c.nodes[p];
            && c'.nodes[p].logs == l.logs && q < |c'.nodes[p].matchIndex| && c'.nodes[p].matchIndex[q] == LastIndex(l)
            && c'.nodes[p].role == Leader && c'.nodes[p].currentTerm == l.currentTerm
            && HasLog(c'.nodes[q].logs, l.logs)
    ensures AcceptedAfter(c, p, q, j - 1) && forall i: nat :: i < j - 1 ==> !AcceptedAfter(c, p, q, i)
    decreases if c.nodes[p].nextIndex[q] == 0 then 1 else if c.nodes[p].nextIndex[q] == 1 then 0 else c.nodes[p].nextIndex[q]
  {
    hide Accepts, NextTry, LogPair, Exchange, HasLog;
    var l, f := c.nodes[p], c.nodes[q];
    var next := l.nextIndex[q];
    PairBasics(l.logs, f.logs);
    if ProbeAccepted(c, p, q) {
      AcceptedExchange(c, p, q);
      OneExchange(c, p, q);
      j := 1;
    } else {
      if next > 0 {
        RejectionMoves(l.logs, f.logs, next);
      }
      UnsettledExchange(c, p, q);
      SameLeader(c, p, q);
      ExchangeSize(c, p, q);
      var more := SettlesInExchanges(Exchange(c, p, q), p, q);
      j := more + 1;
      ExchangesShift(c, p, q, more);
      ExchangesShift(c, p, q, more - 1);
      forall i: nat | i < j - 1
        ensures !AcceptedAfter(c, p, q, i)
      {
        if i == 0 {
          OneExchange(c, p, q);
        } else {
          ExchangesShift(c, p, q, i - 1);
          assert !AcceptedAfter(Exchange(c, p, q), p, q, i - 1);
        }
      }
    }
  }

  lemma OneExchange(c: Cluster, p: nat, q: nat)
    requires p < |c.nodes| && q < |c.nodes|
    ensures Exchanges(c, p, q, 0) == c && Exchanges(c, p, q, 1) == Exchange(c, p, q)
  {
    hide Exchange;
  }

  lemma SameLeader(c: Cluster, p: nat, q: nat)
    requires Ready(c, p, q) && !ProbeAccepted(c, p, q)
    ensures p < |Exchange(c, p, q).nodes| && Exchange(c, p, q).nodes[p].currentTerm == c.nodes[p].currentTerm
  {
    hide NextTry, Accepts, LogPair, Exchange;
    if c.nodes[p].nextIndex[q] == 0 {
      BouncedExchange(c, p, q);
    } else {
      RejectedExchange(c, p, q);
    }
  }

  /** A probe below the follower's log leads to index 1 again, which is below it too. */
  lemma BelowStays(l: Log, f: Log, next: nat)
    requires LogPair(l, f) && 0 < next <= |l| && next <= FirstIndex(f)
    ensures !Accepts(l, f, next) && NextTry(l, f, next) == 1
  {
    hide TermsDecide, TermsAscend, Whole;
    assert TermAt(l, 0) == 0;
    forall i | 0 < i < next
      ensures TermAt(l, i) != 0
    {
    }
  }

  lemma UnsettledGoesOn(l: Log, f: Log, next: nat)
    requires LogPair(l, f) && next <= |l| && !Settles(l, f, next)
    ensures next == 0 ==> !Settles(l, f, 1)
    ensures next > 0 ==> !Accepts(l, f, next) && 0 <= NextTry(l, f, next) <= |l| && !Settles(l, f, NextTry(l, f, next))
  {
    hide Accepts, NextTry, LogPair;
    PairBasics(l, f);
    if 0 < next <= FirstIndex(f) {
      BelowStays(l, f, next);
      BelowNever(l, f);
    } else if next > 0 {
      RejectionMoves(l, f, next);
    } else if FirstIndex(f) > 0 {
      BelowNever(l, f);
    }
  }

  lemma BelowNever(l: Log, f: Log)
    requires LogPair(l, f) && FirstIndex(f) > 0
    ensures !Settles(l, f, 1)
  {
  }

  /** If it does not settle, no number of exchanges gets a request accepted or changes the follower's log. */
  lemma {:induction false} NeverSettles(c: Cluster, p: nat, q: nat, j: nat)
    requires Ready(c, p, q) && !SettlesAt(c, p, q)
    ensures var c' := Exchanges(c, p, q, j);
            && Ready(c', p, q) && !SettlesAt(c', p, q) && !ProbeAccepted(c', p, q)
            && c'.nodes[p].logs == c.nodes[p].logs && c'.nodes[q].logs == c.nodes[q].logs
            && c'.nodes[p].matchIndex[q] <= c.nodes[p].matchIndex[q]
    decreases j
  {
    hide Accepts, NextTry, LogPair, Exchange, Settles;
    if j > 0 {
      NeverSettles(c, p, q, j - 1);
      var mid := Exchanges(c, p, q, j - 1);
      UnsettledGoesOn(mid.nodes[p].logs, mid.nodes[q].logs, mid.nodes[p].nextIndex[q]);
      UnsettledExchange(mid, p, q);
    }
    var c' := Exchanges(c, p, q, j);
    UnsettledGoesOn(c'.nodes[p].logs, c'.nodes[q].logs, c'.nodes[p].nextIndex[q]);
  }

  /** Some exchange succeeds exactly when the search settles. */
  lemma BackupEndsIff(c: Cluster, p: nat, q: nat)
    requires Ready(c, p, q)
    ensures SettlesAt(c, p, q) <==> exists j: nat :: AcceptedAfter(c, p, q, j)
  {
    hide LogPair, Settles, Exchanges, ProbeAccepted;
    if SettlesAt(c, p, q) {
      var j := SettlesInExchanges(c, p, q);
      assert AcceptedAfter(c, p, q, j - 1);
    } else {
      forall j: nat
        ensures !AcceptedAfter(c, p, q, j)
      {
        NeverSettles(c, p, q, j);
      }
    }
  }

  // ---------- Reachable pairs ----------

  /**
   * A reachable uncompacted leader and any other server that is not past its term are such a
   * pair, if that server has not compacted either, has committed past its placeholder, or has
   * nothing after it.
   */
  lemma ReachablePair(n: nat, steps: seq<Step>, p: nat, q: nat)
    requires n > 0 && p < n && q < n && p != q && IsRun(Init(n), steps) && IsDurableRun(Init(n), steps)
    requires var l, f := Exec(Init(n), steps).nodes[p], Exec(Init(n), steps).nodes[q];
             && l.role == Leader && FirstIndex(l.logs) == 0 && f.currentTerm <= l.currentTerm
             && (FirstIndex(f.logs) == 0 || f.commitIndex > FirstIndex(f.logs) || |f.logs| == 1)
    ensures Ready(Exec(Init(n), steps), p, q)
  {
    hide A.Inv, A.ServerOk, A.LeaderOk, A.InvLogs, A.InvCarried, A.InvEvents, A.WellFormed, NodeRel, Exec, IsRun,
         IsDurableRun, Rel, NodeFactsHold, LogPair, Safety.E.Inv;
    var st := Safety.RunRel(n, steps);
    var c := Exec(Init(n), steps);
    Safety.ReadNode(c, st, p);
    Safety.ReadNode(c, st, q);
    PairOfLogs(st, p, c.nodes[p], q, c.nodes[q]);
    Bounds.IndicesLegal(n, steps, p, q);
    Safety.E.GetNode(c, p);
    Safety.NodeEnds(st, c.nodes[p], st.servers[p]);
    Named(c, p);
    LastIs(st, c.nodes[p], st.servers[p]);
  }

  lemma Named(c: Cluster, p: nat)
    requires p < |c.nodes| && Safety.E.NodeOk(c, p)
    ensures c.nodes[p].me == p
  {
  }

  lemma LastIs(st: A.State, n: Node, s: A.Server)
    requires NodeFactsHold(st, n, s) && FirstIndex(n.logs) == 0
    ensures LastIndex(n) == |n.logs| - 1
  {
  }

  lemma PairOfLogs(st: A.State, p: nat, l: Node, q: nat, f: Node)
    requires A.InvLogs(st) && A.InvCarried(st) && A.InvEvents(st) && p < |st.servers| && q < |st.servers|
    requires NodeRel(st, l, st.servers[p]) && NodeFactsHold(st, l, st.servers[p]) && A.ServerOk(st, st.servers[p]) && A.LeaderOk(st, p)
    requires NodeRel(st, f, st.servers[q]) && NodeFactsHold(st, f, st.servers[q]) && A.ServerOk(st, st.servers[q])
    requires l.role == Leader && FirstIndex(l.logs) == 0 && f.currentTerm <= l.currentTerm
    requires FirstIndex(f.logs) == 0 || f.commitIndex > FirstIndex(f.logs) || |f.logs| == 1
    ensures LogPair(l.logs, f.logs)
  {
    hide A.InvLogs, A.InvCarried, A.InvEvents, A.WellFormed, A.ServerOk, A.LeaderOk, NodeRel, TermsAscend, TermsDecide,
         Whole, Compact, Contiguous, NodeFactsHold, LogPair;
    var s, r := st.servers[p], st.servers[q];
    var k := FirstIndex(f.logs);
    Safety.NodeEnds(st, l, s);
    Safety.NodeEnds(st, f, r);
    Safety.Uncompacted(st, l, s);
    Safety.LeadersOwn(st, p);
    S.CommitInLeader(st, r, s.term);
    WholeLog(st, f, r, l);
    NoTail(st, f, r);
    M.ZeroTerm(st, s);
    M.ZeroTerm(st, r);
    AscendingLog(st, s.log);
    AscendingLog(st, r.log);
    Decides(st, r.log, s.log);
    Facts(st, l, s);
    Facts(st, f, r);
    MakePair(l.logs, f.logs, r.log);
  }

  lemma Facts(st: A.State, n: Node, s: A.Server)
    requires NodeFactsHold(st, n, s)
    ensures Contiguous(n.logs) && |s.log| == FirstIndex(n.logs) + |n.logs|
  {
  }

  lemma MakePair(l: Log, f: Log, w: seq<Entry>)
    requires Contiguous(l) && Contiguous(f) && l[0] == Placeholder && FirstIndex(f) < |l|
    requires f[0] == Entry(FirstIndex(f), l[FirstIndex(f)].term, Nil)
    requires |w| == FirstIndex(f) + |f| && f == Compact(w, FirstIndex(f)) && Whole(l, f) == w
    requires (forall i :: 0 < i < |l| ==> l[i].term != 0) && (forall i :: 0 < i < |w| ==> w[i].term != 0)
    requires TermsAscend(l) && TermsAscend(w) && TermsDecide(w, l)
    ensures LogPair(l, f)
  {
    hide Whole, TermsDecide, TermsAscend;
    assert forall i :: 0 < i < |f| ==> f[i] == w[FirstIndex(f) + i];
    SuffixAscends(f, w, FirstIndex(f));
  }

  lemma WholeLog(st: A.State, f: Node, r: A.Server, l: Node)
    requires NodeRel(st, f, r) && Agree(r.log, l.logs, r.commit + 1)
    ensures FirstIndex(f.logs) < |l.logs| && f.logs == Compact(r.log, FirstIndex(f.logs))
    ensures f.logs[0] == Entry(FirstIndex(f.logs), l.logs[FirstIndex(f.logs)].term, Nil) && Whole(l.logs, f.logs) == r.log
  {
    var k := FirstIndex(f.logs);
    assert f.logs[1..] == r.log[k + 1..];
    assert r.log == r.log[..k + 1] + r.log[k + 1..];
    assert l.logs[..k + 1] == r.log[..k + 1];
  }

  lemma NoTail(st: A.State, f: Node, r: A.Server)
    requires A.InvLogs(st) && NodeRel(st, f, r) && A.ServerOk(st, r)
    requires FirstIndex(f.logs) == 0 || f.commitIndex > FirstIndex(f.logs) || |f.logs| == 1
    ensures A.WellFormed(st, r.log, |r.log|)
  {
    hide A.InvLogs, A.WellFormed;
    if FirstIndex(f.logs) == 0 {
      Safety.Uncompacted(st, f, r);
    }
  }

  lemma SuffixAscends(f: Log, w: seq<Entry>, k: nat)
    requires TermsAscend(w) && |w| == k + |f| && f == Compact(w, k)
    ensures TermsAscend(f)
  {
    forall i, j | 0 <= i <= j < |f|
      ensures f[i].term <= f[j].term
    {
      assert f[i].term == w[k + i].term && f[j].term == w[k + j].term;
    }
  }

  lemma AscendingLog(st: A.State, log: seq<Entry>)
    requires A.InvLogs(st) && A.WellFormed(st, log, |log|)
    ensures TermsAscend(log)
  {
    hide A.InvLogs, A.WellFormed;
    forall i, j | 0 <= i <= j < |log|
      ensures log[i].term <= log[j].term
    {
      A.TermsMonotone(st, log, |log|, i, j);
    }
  }

  lemma Decides(st: A.State, a: seq<Entry>, b: seq<Entry>)
    requires A.WellFormed(st, a, |a|) && A.WellFormed(st, b, |b|)
    ensures TermsDecide(a, b)
  {
    hide A.WellFormed;
    forall i | 0 <= i < |a| && i < |b| && a[i].term == b[i].term
      ensures Agree(a, b, i + 1)
    {
      A.LogMatching(st, a, |a|, b, |b|, i);
    }
  }
}
