/**
 * What a server must do, said of the cluster's steps without the handlers that do it: when a vote
 * is given, when a request is taken and what a refusal says, what a leader sends, commits and
 * tries next, when it steps down, and what snapshots and crashes leave.  Every statement is about
 * any state that any run reaches, whatever crashed before.
 */
module Duties {
  import opened Types
  import opened LogStore
  import opened Rpc
  import opened Median
  import opened Handlers
  import opened Cluster
  import B = Bounds
  import E = Election
  import T = Terms

  /** Some run of n servers leads to c. */
  ghost predicate Reachable(n: nat, c: Cluster) {
    exists steps :: IsRun(Init(n), steps) && c == Exec(Init(n), steps)
  }

  lemma Sound(n: nat, c: Cluster)
    requires Reachable(n, c)
    ensures |c.nodes| == n && B.Inv(c) && E.Inv(c) && T.Inv(c)
  {
    hide Exec, IsRun, B.Inv, E.Inv, T.Inv;
    var steps :| IsRun(Init(n), steps) && c == Exec(Init(n), steps);
    B.RunOk(n, steps);
    E.RunOk(n, steps);
    T.RunOk(n, steps);
  }

  lemma SoundNode(n: nat, c: Cluster, p: nat)
    requires Reachable(n, c) && p < n
    ensures |c.nodes| == n && B.NodeOk(c.nodes[p]) && E.NodeOk(c, p) && T.NodeOk(c.nodes[p]) && T.Voted(c, p)
    ensures LastIndex(c.nodes[p]) == FirstIndex(c.nodes[p].logs) + |c.nodes[p].logs| - 1
  {
    hide Reachable, B.Inv, E.Inv, T.Inv, E.NodeOk, T.NodeOk;
    Sound(n, c);
    B.GetNode(c, p);
    E.GetNode(c, p);
    T.GetNode(c, p);
    B.Ends(c.nodes[p].logs);
  }

  // ---------- Votes ----------

  /**
   * A vote is given if and only if the candidate's term is not behind, its log is at least as up
   * to date (section 5.4.1) and the server has voted for nobody else in that term.
   */
  lemma VoteAnswered(n: nat, c: Cluster, p: nat, ask: VoteRequest) returns (r: VoteResponse)
    requires Reachable(n, c) && p < n == |c.nodes| && Enabled(c, OnAskVote(p, ask))
    ensures var c' := Do(c, OnAskVote(p, ask));
            && |c'.nodes| == n && c'.net == c.net + {ReplyVote(p, ask, r)}
            && var f, f' := c.nodes[p], c'.nodes[p];
               && (r.granted <==>
                     && ask.term >= f.currentTerm
                     && (ask.lastTerm > LastLog(f.logs).term || (ask.lastTerm == LastLog(f.logs).term && ask.lastIndex >= LastIndex(f)))
                     && forall x: nat :: Vote(p, ask.term, x) in c.votes ==> x == ask.cand)
               && c'.votes == (if r.granted then c.votes + {Vote(p, ask.term, ask.cand)} else c.votes)
               && r.term == f'.currentTerm == Max(f.currentTerm, ask.term)
               && f'.role == (if ask.term > f.currentTerm then Follower else f.role)
               && f'.logs == f.logs && f'.commitIndex == f.commitIndex
  {
    hide Reachable, B.NodeOk, T.NodeOk, E.Supporters, E.Inv, B.Inv, T.Inv;
    Sound(n, c);
    SoundNode(n, c, p);
    VotesBind(c, p);
    r := HandleVoteRequest(c.nodes[p], ask).1;
  }

  lemma VotesBind(c: Cluster, p: nat)
    requires E.Inv(c) && p < |c.nodes|
    ensures forall t: nat, x: nat :: Vote(p, t, x) in c.votes ==>
              t <= c.nodes[p].currentTerm && (t == c.nodes[p].currentTerm ==> c.nodes[p].votedFor == x)
  {
    forall t: nat, x: nat | Vote(p, t, x) in c.votes
      ensures t <= c.nodes[p].currentTerm && (t == c.nodes[p].currentTerm ==> c.nodes[p].votedFor == x)
    {
      assert E.VoteBinds(c, Vote(p, t, x));
    }
  }

  /** Standing for the next term: the term is raised, the own vote cast and stored, everyone asked. */
  lemma Stands(n: nat, c: Cluster, p: nat)
    requires Reachable(n, c) && p < n == |c.nodes|
    ensures var c' := Do(c, Elect(p));
            && |c'.nodes| == n
            && var f, f' := c.nodes[p], c'.nodes[p];
               && c'.net == c.net + {AskVote(VoteRequest(f.currentTerm + 1, p, LastIndex(f), LastLog(f.logs).term))}
               && c'.votes == c.votes + {Vote(p, f.currentTerm + 1, p)}
               && f'.role == Candidate && f'.currentTerm == f.currentTerm + 1 && f'.votedFor == p
               && f'.grantedVotes == 1 && f'.answered == {}
               && f'.logs == f.logs && f'.stable == Stable(f'.currentTerm, p, f.logs)
  {
    hide Reachable, B.NodeOk, T.NodeOk, E.Supporters;
    SoundNode(n, c, p);
  }

  /** A follower of the later term, with no vote in it, and stored as such; the log is as it was. */
  predicate SteppedDown(f: Node, f': Node, term: nat) {
    && f'.role == Follower && f'.currentTerm == term && f'.votedFor == -1
    && f'.logs == f.logs && f'.commitIndex == f.commitIndex && f'.stable == Stable(term, -1, f.logs)
  }

  /**
   * A granted vote counts once, and the candidate leads if and only if more than half are then
   * counted; it then tries every peer after its last entry and knows of no match.  A refusal with
   * a later term ends the candidacy; any other leaves it as it is.
   */
  lemma VoteTaken(n: nat, c: Cluster, p: nat, from: nat, ask: VoteRequest, vote: VoteResponse)
    requires Reachable(n, c) && p < n == |c.nodes| && Enabled(c, OnReplyVote(p, from, ask, vote))
    ensures |Do(c, OnReplyVote(p, from, ask, vote)).nodes| == n
    ensures var f, f' := c.nodes[p], Do(c, OnReplyVote(p, from, ask, vote)).nodes[p];
            if f.role != Candidate || f.currentTerm != ask.term then f' == f
            else if vote.granted then
              && f'.grantedVotes == f.grantedVotes + 1 && f'.answered == f.answered + {from}
              && f'.currentTerm == f.currentTerm && f'.logs == f.logs
              && f'.role == (if 2 * (f.grantedVotes + 1) > n then Leader else Candidate)
              && (f'.role == Leader ==>
                    |f'.nextIndex| == |f'.matchIndex| == n
                    && forall q :: 0 <= q < n ==> f'.nextIndex[q] == LastIndex(f) + 1 && f'.matchIndex[q] == 0)
            else if vote.term > f.currentTerm then SteppedDown(f, f', vote.term)
            else f' == f.(answered := f.answered + {from})
  {
    hide Reachable, B.NodeOk, T.NodeOk, E.Supporters;
    SoundNode(n, c, p);
  }

  // ---------- What a leader sends ----------

  /** To a peer whose next index is past its placeholder, a leader sends all it has from there on. */
  lemma SendsRest(n: nat, c: Cluster, p: nat, peer: nat) returns (a: AppendRequest)
    requires Reachable(n, c) && p < n == |c.nodes| && peer < n && peer != p
    requires var l := c.nodes[p]; l.role == Leader && |l.nextIndex| == n && l.nextIndex[peer] > FirstIndex(l.logs)
    ensures var l := c.nodes[p];
            && Do(c, Replicate(p, peer)) == c.(net := c.net + {AskAppend(peer, a)})
            && a.term == l.currentTerm && a.leader == p && a.leaderCommit == l.commitIndex
            && a.prevIndex == l.nextIndex[peer] - 1 && MatchLog(l.logs, a.prevTerm, a.prevIndex)
            && a.prevIndex + |a.entries| == LastIndex(l)
            && forall k :: 0 <= k < |a.entries| ==> HasEntry(l.logs, a.prevIndex + 1 + k, a.entries[k])
  {
    hide Reachable, T.NodeOk, E.Supporters, B.Shaped, B.Covers, HasEntry;
    SoundNode(n, c, p);
    var l := c.nodes[p];
    var prev := l.nextIndex[peer] - 1;
    a := GenAppend(l, prev);
    B.GenOk(l, prev);
    Covered(l.logs, a);
    GenRest(l, prev);
  }

  lemma GenRest(l: Node, prev: int)
    requires InLog(l.logs, prev) && LastIndex(l) == FirstIndex(l.logs) + |l.logs| - 1
    ensures var a := GenAppend(l, prev); prev + |a.entries| == LastIndex(l) && MatchLog(l.logs, a.prevTerm, prev)
  {
  }

  lemma Covered(logs: Log, a: AppendRequest)
    requires B.Covers(logs, a) && FirstIndex(logs) <= a.prevIndex
    ensures forall k :: 0 <= k < |a.entries| ==> HasEntry(logs, a.prevIndex + 1 + k, a.entries[k])
  {
  }

  /** To one that is not, it sends its stored snapshot; and only a leader sends anything. */
  lemma SendsSnapshot(n: nat, c: Cluster, p: nat, peer: nat)
    requires Reachable(n, c) && p < n == |c.nodes| && peer < n && peer != p
    ensures |c.nodes[p].nextIndex| == n
    ensures var l := c.nodes[p];
            && (l.role != Leader ==> Do(c, Replicate(p, peer)) == c)
            && (l.role == Leader && l.nextIndex[peer] <= FirstIndex(l.logs) ==>
                  var first := FirstIndex(l.logs);
                  Do(c, Replicate(p, peer)) ==
                    c.(net := c.net + {AskSnap(peer, SnapRequest(l.currentTerm, p, first, TermAt(l.logs, first), l.snapshot))}))
  {
    hide Reachable, B.NodeOk, T.NodeOk, E.Supporters;
    SoundNode(n, c, p);
  }

  // ---------- What a follower takes ----------

  /** The log has the terms of the entries, which come after `prev`. */
  predicate HasTerms(logs: Log, entries: seq<Entry>, prev: int) {
    forall k :: 0 <= k < |entries| ==> MatchLog(logs, entries[k].term, prev + 1 + k)
  }

  /**
   * A request is taken if and only if its term is not behind and the log has the probed term at
   * the probed index.  The log then keeps everything up to there, and everything after it too if
   * the terms of the request's entries are all there; otherwise it ends with the request.  The
   * commit index follows the leader's as far as the log reaches.
   */
  lemma RequestAnswered(n: nat, c: Cluster, p: nat, a: AppendRequest) returns (r: AppendResponse)
    requires Reachable(n, c) && p < n == |c.nodes| && Enabled(c, OnAskAppend(p, a))
    ensures var c' := Do(c, OnAskAppend(p, a));
            && |c'.nodes| == n && c'.net == c.net + {ReplyAppend(p, a, r)}
            && var f, f' := c.nodes[p], c'.nodes[p];
               && (r.success <==> a.term >= f.currentTerm && MatchLog(f.logs, a.prevTerm, a.prevIndex))
               && r.term == f'.currentTerm == Max(f.currentTerm, a.term)
               && f'.role == (if a.term < f.currentTerm then f.role else Follower)
               && f'.votedFor == (if a.term > f.currentTerm then -1 else f.votedFor)
               && f'.stable == Stable(f'.currentTerm, f'.votedFor, f'.logs)
               && (!r.success ==> f'.logs == f.logs && f'.commitIndex == f.commitIndex)
               && (r.success && HasTerms(f.logs, a.entries, a.prevIndex) ==> f'.logs == f.logs)
               && (r.success && !HasTerms(f.logs, a.entries, a.prevIndex) ==> LastIndex(f') == a.prevIndex + |a.entries|)
               && (r.success ==>
                     && (forall i :: FirstIndex(f.logs) <= i <= a.prevIndex ==> B.SameAt(f.logs, f'.logs, i))
                     && HasTerms(f'.logs, a.entries, a.prevIndex)
                     && f'.commitIndex == Max(f.commitIndex, Min(a.leaderCommit, LastIndex(f'))))
  {
    hide Reachable, E.Inv, T.Inv, B.Inv, T.NodeOk, E.NodeOk, Splice, ScanBack, HasTerms, B.SameAt;
    Sound(n, c);
    SoundNode(n, c, p);
    B.GetMsg(c, AskAppend(p, a));
    B.RequestIs(c, a);
    var f := c.nodes[p];
    r := HandleAppend(f, a).1;
    if MatchLog(f.logs, a.prevTerm, a.prevIndex) {
      Spliced(f.logs, a.entries, a.prevIndex);
    }
  }

  /** Where a splice leaves the log, by index. */
  lemma {:induction false} Spliced(logs: Log, entries: seq<Entry>, prev: int)
    requires Contiguous(logs) && InLog(logs, prev)
    requires forall k :: 0 <= k < |entries| ==> entries[k].index == prev + 1 + k
    ensures var s := Splice(logs, entries);
            && (forall i :: FirstIndex(logs) <= i <= prev ==> B.SameAt(logs, s, i))
            && HasTerms(s, entries, prev)
            && (if HasTerms(logs, entries, prev) then s == logs else LastLog(s).index == prev + |entries|)
    decreases |entries|
  {
    hide HasTerms, B.SameAt, MatchLog;
    if entries == [] {
      NothingSpliced(logs, prev);
    } else {
      var s, e := Splice(logs, entries), entries[0];
      assert e.index == prev + 1;
      if MatchLog(logs, e.term, e.index) {
        MatchInside(logs, e.term, prev + 1);
        Spliced(logs, entries[1..], prev + 1);
        FirstAndRest(logs, entries, prev);
        FirstAndRest(s, entries, prev);
        MatchStays(logs, s, e.term, prev + 1);
      } else {
        TakenOver(logs, entries, prev);
      }
    }
  }

  lemma NothingSpliced(logs: Log, prev: int)
    requires Contiguous(logs) && InLog(logs, prev)
    ensures HasTerms(logs, [], prev) && forall i :: FirstIndex(logs) <= i <= prev ==> B.SameAt(logs, logs, i)
  {
  }

  lemma MatchInside(logs: Log, term: nat, i: int)
    requires MatchLog(logs, term, i)
    ensures InLog(logs, i)
  {
  }

  lemma MatchStays(logs: Log, s: Log, term: nat, i: int)
    requires MatchLog(logs, term, i) && B.SameAt(logs, s, i)
    ensures MatchLog(s, term, i)
  {
  }

  lemma FirstAndRest(logs: Log, entries: seq<Entry>, prev: int)
    requires entries != []
    ensures HasTerms(logs, entries, prev) <==> MatchLog(logs, entries[0].term, prev + 1) && HasTerms(logs, entries[1..], prev + 1)
  {
    if MatchLog(logs, entries[0].term, prev + 1) && HasTerms(logs, entries[1..], prev + 1) {
      forall k | 0 <= k < |entries|
        ensures MatchLog(logs, entries[k].term, prev + 1 + k)
      {
        assert k > 0 ==> MatchLog(logs, entries[1..][k - 1].term, prev + 2 + (k - 1));
      }
    } else if HasTerms(logs, entries, prev) {
      forall k | 0 <= k < |entries[1..]|
        ensures MatchLog(logs, entries[1..][k].term, prev + 2 + k)
      {
        assert MatchLog(logs, entries[k + 1].term, prev + 1 + (k + 1));
      }
    }
  }

  lemma TakenOver(logs: Log, entries: seq<Entry>, prev: int)
    requires Contiguous(logs) && InLog(logs, prev) && entries != [] && !MatchLog(logs, entries[0].term, prev + 1)
    requires forall k :: 0 <= k < |entries| ==> entries[k].index == prev + 1 + k
    ensures var s := Splice(logs, entries);
            && (forall i :: FirstIndex(logs) <= i <= prev ==> B.SameAt(logs, s, i))
            && HasTerms(s, entries, prev) && !HasTerms(logs, entries, prev) && LastLog(s).index == prev + |entries|
  {
    hide HasTerms, MatchLog, B.SameAt;
    var j := prev + 1 - FirstIndex(logs);
    assert entries[0].index == prev + 1;
    assert Splice(logs, entries) == logs[..j] + entries;
    FirstAndRest(logs, entries, prev);
    assert Last(logs[..j] + entries) == entries[|entries| - 1];
    Joined(logs, entries, prev);
  }

  lemma Joined(logs: Log, entries: seq<Entry>, prev: int)
    requires InLog(logs, prev)
    ensures var s: Log := logs[..prev + 1 - FirstIndex(logs)] + entries;
            && (forall i :: FirstIndex(logs) <= i <= prev ==> B.SameAt(logs, s, i))
            && HasTerms(s, entries, prev)
  {
    var j := prev + 1 - FirstIndex(logs);
    var s: Log := logs[..j] + entries;
    assert s[0] == logs[0];
    forall k | 0 <= k < |entries|
      ensures MatchLog(s, entries[k].term, prev + 1 + k)
    {
      assert s[j + k] == entries[k];
    }
  }

  /**
   * What a refusal says: nothing if the log no longer has the probed index; where the log ends if
   * it is too short; otherwise the term found there and the last index before its run.
   */
  lemma RefusalSays(n: nat, c: Cluster, p: nat, a: AppendRequest) returns (r: AppendResponse)
    requires Reachable(n, c) && p < n == |c.nodes| && Enabled(c, OnAskAppend(p, a))
    requires a.term >= c.nodes[p].currentTerm && !MatchLog(c.nodes[p].logs, a.prevTerm, a.prevIndex)
    ensures var f := c.nodes[p];
            && Do(c, OnAskAppend(p, a)).net == c.net + {ReplyAppend(p, a, r)} && !r.success
            && (a.prevIndex < FirstIndex(f.logs) ==> r.conflictIndex == 0 && r.conflictTerm == 0)
            && (a.prevIndex > LastIndex(f) ==> r.conflictIndex == LastIndex(f) + 1 && r.conflictTerm == -1)
            && (InLog(f.logs, a.prevIndex) ==>
                  && r.conflictTerm == TermAt(f.logs, a.prevIndex)
                  && FirstIndex(f.logs) - 1 <= r.conflictIndex < a.prevIndex
                  && (forall i :: r.conflictIndex < i <= a.prevIndex ==> TermAt(f.logs, i) == r.conflictTerm)
                  && (r.conflictIndex >= FirstIndex(f.logs) ==> TermAt(f.logs, r.conflictIndex) != r.conflictTerm))
  {
    hide Reachable, T.NodeOk, E.Supporters, Splice, B.NodeOk;
    SoundNode(n, c, p);
    r := HandleAppend(c.nodes[p], a).1;
  }

  // ---------- What a leader makes of the answers ----------

  /**
   * A leader commits what it should: after a success it knows the peer to match through what the
   * request covered, every index of its own term that more than half match is committed, and a
   * commit index that rose is such an index.
   */
  lemma SuccessCounted(n: nat, c: Cluster, p: nat, from: nat, a: AppendRequest, r: AppendResponse)
    requires Reachable(n, c) && p < n == |c.nodes| && Enabled(c, OnReplyAppend(p, from, a, r))
    requires B.Leads(c.nodes[p], a.term) && r.success
    ensures var c' := Do(c, OnReplyAppend(p, from, a, r));
            && |c'.nodes| == n == |c.nodes[p].matchIndex| == |c.nodes[p].nextIndex| && from < n
            && var l, l' := c.nodes[p], c'.nodes[p];
               var m := a.prevIndex + |a.entries|;
               && 0 <= m && l'.matchIndex == l.matchIndex[from := m] && l'.nextIndex == l.nextIndex[from := m + 1]
               && (forall i: nat :: InLog(l.logs, i) && TermAt(l.logs, i) == l.currentTerm && Majority(Reached(l'.matchIndex, i), n) ==>
                     i <= l'.commitIndex)
               && l'.commitIndex >= l.commitIndex
               && (l'.commitIndex > l.commitIndex ==>
                     && InLog(l.logs, l'.commitIndex) && TermAt(l.logs, l'.commitIndex) == l.currentTerm
                     && Majority(Reached(l'.matchIndex, l'.commitIndex), n))
               && l' == l.(matchIndex := l'.matchIndex, nextIndex := l'.nextIndex, commitIndex := l'.commitIndex)
  {
    hide Reachable, E.Inv, T.Inv, B.Inv, E.Supporters, MedianOf, Reached, B.Elected, B.Covers;
    Sound(n, c);
    SoundNode(n, c, p);
    B.GetMsg(c, ReplyAppend(from, a, r));
    B.InsideLog(c, a);
    var l, l' := c.nodes[p], Do(c, OnReplyAppend(p, from, a, r)).nodes[p];
    var m := l.matchIndex[from := a.prevIndex + |a.entries|];
    MedianMajority(m);
    MedianInside(l, m);
    forall i: nat | InLog(l.logs, i) && TermAt(l.logs, i) == l.currentTerm && Majority(Reached(m, i), n)
      ensures i <= l'.commitIndex
    {
      MajorityIsBelow(m, i);
      OwnFrom(l, i, MedianOf(m));
    }
  }

  lemma MajorityIsBelow(m: seq<nat>, i: nat)
    requires |m| > 0 && Majority(Reached(m, i), |m|)
    ensures i <= MedianOf(m)
  {
    ReachedSize(m, i);
    MedianRule(m, i);
  }

  /** Some server matches the median, so it lies at or below the last entry. */
  lemma MedianInside(l: Node, m: seq<nat>)
    requires |m| > 0 && forall q :: 0 <= q < |m| ==> m[q] <= LastIndex(l)
    ensures MedianOf(m) <= LastIndex(l)
  {
    hide MedianOf;
    MedianMajority(m);
    var q :| q in Reached(m, MedianOf(m));
  }

  lemma OwnFrom(l: Node, i: nat, j: nat)
    requires T.NodeOk(l) && l.role == Leader && B.NodeOk(l) && i <= j <= LastIndex(l)
    requires LastIndex(l) == FirstIndex(l.logs) + |l.logs| - 1
    requires InLog(l.logs, i) && TermAt(l.logs, i) == l.currentTerm
    ensures MatchLog(l.logs, l.currentTerm, j)
  {
    var first := FirstIndex(l.logs);
    assert l.logs[i - first].term == l.currentTerm;
    assert l.logs[j - first].term == l.currentTerm;
  }

  /**
   * After a refusal in its own term a leader goes on right after the last entry, at or below the
   * probe, of the term the follower named, or else where the follower said.
   */
  lemma RefusalFollowed(n: nat, c: Cluster, p: nat, from: nat, a: AppendRequest, r: AppendResponse)
    requires Reachable(n, c) && p < n == |c.nodes| && Enabled(c, OnReplyAppend(p, from, a, r))
    requires B.Leads(c.nodes[p], a.term) && !r.success && r.term == a.term
    ensures var c' := Do(c, OnReplyAppend(p, from, a, r));
            && |c'.nodes| == n == |c.nodes[p].nextIndex| && from < n
            && var l, l' := c.nodes[p], c'.nodes[p];
               && |l'.nextIndex| == n && l' == l.(nextIndex := l.nextIndex[from := l'.nextIndex[from]])
               && var next := l'.nextIndex[from];
                  if exists i: nat :: Named(l.logs, a, r, i)
                  then next > 0 && Named(l.logs, a, r, next - 1) && forall i: nat :: Named(l.logs, a, r, i) ==> i < next
                  else next == r.conflictIndex
  {
    hide Reachable, E.Inv, T.Inv, B.Inv, T.NodeOk, B.NodeOk, E.Supporters, B.Elected, B.Covers, FindTerm;
    Sound(n, c);
    SoundNode(n, c, p);
    B.GetMsg(c, ReplyAppend(from, a, r));
    B.InsideLog(c, a);
    var l := c.nodes[p];
    var k := FindTerm(l.logs, a.prevIndex, r.conflictTerm);
    if r.conflictTerm != -1 && k >= FirstIndex(l.logs) {
      assert Named(l.logs, a, r, k);
    }
  }

  /** An entry at or below the probe with the term that the refusal names. */
  predicate Named(logs: Log, a: AppendRequest, r: AppendResponse, i: nat) {
    InLog(logs, i) && i <= a.prevIndex && TermAt(logs, i) == r.conflictTerm
  }

  /** A refusal or a snapshot's answer that names a later term than the request's. */
  predicate NamesLater(s: Step) {
    (s.OnReplyAppend? && !s.appended.success && s.appended.term > s.append.term) ||
    (s.OnReplySnap? && s.snapped.term > s.snap.term)
  }

  function TermOfAnswered(s: Step): nat
    requires s.OnReplyAppend? || s.OnReplySnap?
  {
    if s.OnReplyAppend? then s.append.term else s.snap.term
  }

  /** Such an answer makes the leader of the request's term a follower. */
  lemma LaterTermStepsDown(n: nat, c: Cluster, p: nat, s: Step)
    requires Reachable(n, c) && p < n == |c.nodes| && Enabled(c, s) && s.p == p
    requires NamesLater(s) && B.Leads(c.nodes[p], TermOfAnswered(s))
    ensures |Do(c, s).nodes| == n
    ensures SteppedDown(c.nodes[p], Do(c, s).nodes[p], if s.OnReplyAppend? then s.appended.term else s.snapped.term)
  {
    hide Reachable, E.Inv, T.Inv, B.Inv, T.NodeOk, B.NodeOk, E.Supporters, B.Elected, B.Covers, NextAfter, MedianOf;
    Sound(n, c);
    SoundNode(n, c, p);
    B.GetMsg(c, if s.OnReplyAppend? then ReplyAppend(s.from, s.append, s.appended) else ReplySnap(s.from, s.snap, s.snapped));
  }

  /** An answer to what was sent in another term, or to a server that leads no more, changes nothing. */
  lemma LateAnswerIgnored(n: nat, c: Cluster, p: nat, s: Step)
    requires Reachable(n, c) && p < n == |c.nodes| && Enabled(c, s) && s.p == p
    requires (s.OnReplyAppend? || s.OnReplySnap?) && !B.Leads(c.nodes[p], TermOfAnswered(s))
    ensures Do(c, s) == c
  {
    hide Reachable, NextAfter, MedianOf;
    assert c.nodes[p := c.nodes[p]] == c.nodes;
  }

  // ---------- Snapshots ----------

  /**
   * A snapshot request whose term is not behind makes a follower of its term, and its snapshot is
   * passed on to the service if and only if it covers more than is committed here.
   */
  lemma SnapshotAnswered(n: nat, c: Cluster, p: nat, a: SnapRequest)
    requires Reachable(n, c) && p < n == |c.nodes| && Enabled(c, OnAskSnap(p, a))
    ensures var c' := Do(c, OnAskSnap(p, a));
            && |c'.nodes| == n
            && var f, f' := c.nodes[p], c'.nodes[p];
               && c'.net == c.net + {ReplySnap(p, a, SnapResponse(f.currentTerm))}
               && f'.currentTerm == Max(f.currentTerm, a.term)
               && f'.role == (if a.term < f.currentTerm then f.role else Follower)
               && f'.votedFor == (if a.term > f.currentTerm then -1 else f.votedFor)
               && f'.pending == (if a.term >= f.currentTerm && a.lastIndex > f.commitIndex
                                 then f.pending + {SnapshotMsg(a.lastTerm, a.lastIndex, a.data)} else f.pending)
               && f'.stable.term == f'.currentTerm && f'.stable.votedFor == f'.votedFor
               && f'.logs == f.logs && f'.commitIndex == f.commitIndex && f'.snapshot == f.snapshot
  {
    hide Reachable, B.NodeOk, T.NodeOk, E.Supporters;
    SoundNode(n, c, p);
  }

  /** An answer in the leader's term moves both of the peer's indices to what the snapshot covers. */
  lemma SnapshotCounted(n: nat, c: Cluster, p: nat, from: nat, a: SnapRequest, r: SnapResponse)
    requires Reachable(n, c) && p < n == |c.nodes| && Enabled(c, OnReplySnap(p, from, a, r))
    requires B.Leads(c.nodes[p], a.term) && r.term <= a.term
    ensures |c.nodes[p].nextIndex| == |c.nodes[p].matchIndex| == n && from < n
    ensures var l := c.nodes[p];
            Do(c, OnReplySnap(p, from, a, r)) ==
              c.(nodes := c.nodes[p := l.(matchIndex := l.matchIndex[from := a.lastIndex],
                                          nextIndex := l.nextIndex[from := a.lastIndex + 1])])
  {
    hide Reachable, E.Inv, T.Inv, B.Inv, T.NodeOk, B.NodeOk, E.Supporters, B.Elected;
    Sound(n, c);
    SoundNode(n, c, p);
    B.GetMsg(c, ReplySnap(from, a, r));
  }

  /** After `index` the log is what it was there: the same entries, as many, none before. */
  predicate CutAt(logs: Log, logs': Log, index: nat, term: nat) {
    && FirstIndex(logs') == index && TermAt(logs', index) == term && logs'[0].command == Nil
    && LastLog(logs').index == Max(index, LastLog(logs).index)
    && forall i :: index < i <= LastLog(logs).index ==> B.SameAt(logs, logs', i)
  }

  /**
   * A snapshot is installed if and only if it covers more than is committed.  Then the log begins
   * at it and goes on with whatever came after, and log, indices, stored state and stored snapshot
   * change together.
   */
  lemma Installed(n: nat, c: Cluster, p: nat, msg: SnapshotMsg)
    requires Reachable(n, c) && p < n == |c.nodes| && Enabled(c, Install(p, msg))
    ensures var c' := Do(c, Install(p, msg));
            && |c'.nodes| == n
            && var f, f' := c.nodes[p], c'.nodes[p];
               if msg.index <= f.commitIndex then f' == f
               else
                 && CutAt(f.logs, f'.logs, msg.index, msg.term)
                 && f' == f.(logs := f'.logs, commitIndex := msg.index, lastApplied := msg.index, snapshot := msg.data,
                             stable := Stable(f.currentTerm, f.votedFor, f'.logs))
  {
    hide Reachable, T.NodeOk, E.NodeOk, InstalledLog, CutAt;
    SoundNode(n, c, p);
    var f := c.nodes[p];
    if msg.index > f.commitIndex {
      InstallCuts(f.logs, msg.term, msg.index);
    }
  }

  lemma InstallCuts(logs: Log, term: nat, index: nat)
    requires Contiguous(logs) && FirstIndex(logs) < index
    ensures CutAt(logs, InstalledLog(logs, term, index), index, term)
  {
    var logs' := InstalledLog(logs, term, index);
    B.Ends(logs);
    if InLog(logs, index) {
      var d := index - FirstIndex(logs);
      assert logs' == [Entry(index, term, Nil)] + logs[d + 1..];
      CutSame(logs, logs', d);
    }
  }

  lemma TrimCuts(logs: Log, index: nat)
    requires Contiguous(logs) && FirstIndex(logs) < index <= LastLog(logs).index
    ensures CutAt(logs, Trim(logs, index), index, TermAt(logs, index))
  {
    B.Ends(logs);
    var d := index - FirstIndex(logs);
    assert Trim(logs, index) == [logs[d].(command := Nil)] + logs[d + 1..];
    CutSame(logs, Trim(logs, index), d);
  }

  lemma CutSame(logs: Log, logs': Log, d: nat)
    requires Contiguous(logs) && d < |logs| && FirstIndex(logs') == FirstIndex(logs) + d
    requires |logs'| == |logs| - d && forall j :: 0 < j < |logs'| ==> logs'[j] == logs[d + j]
    ensures LastLog(logs').index == LastLog(logs).index
    ensures forall i :: FirstIndex(logs') < i <= LastLog(logs).index ==> B.SameAt(logs, logs', i)
  {
    B.Ends(logs);
    forall i | FirstIndex(logs') < i <= LastLog(logs).index
      ensures B.SameAt(logs, logs', i)
    {
      assert logs'[i - FirstIndex(logs')] == logs[d + (i - FirstIndex(logs'))];
    }
  }

  /**
   * The service's snapshot at an index is taken if and only if the index is past the placeholder.
   * Inside the log, the log then begins there, and is stored together with the snapshot.
   */
  lemma Trimmed(n: nat, c: Cluster, p: nat, index: nat)
    requires Reachable(n, c) && p < n == |c.nodes| && Enabled(c, TakeSnapshot(p, index)) && index <= LastIndex(c.nodes[p])
    ensures var c' := Do(c, TakeSnapshot(p, index));
            && |c'.nodes| == n
            && var f, f' := c.nodes[p], c'.nodes[p];
               if index <= FirstIndex(f.logs) then f' == f
               else
                 && CutAt(f.logs, f'.logs, index, TermAt(f.logs, index))
                 && f' == f.(logs := f'.logs, snapshot := ServiceState(f, index),
                             stable := Stable(f.currentTerm, f.votedFor, f'.logs))
  {
    hide Reachable, T.NodeOk, E.NodeOk, ServiceState, Trim, CutAt;
    SoundNode(n, c, p);
    var f := c.nodes[p];
    if index > FirstIndex(f.logs) {
      TrimCuts(f.logs, index);
    }
  }

  // ---------- Crashes ----------

  /** A server comes back as a follower with what was stored, and nothing applied past the snapshot. */
  lemma Restarted(n: nat, c: Cluster, p: nat)
    requires Reachable(n, c) && p < n == |c.nodes|
    ensures var c' := Do(c, CrashRestart(p));
            && |c'.nodes| == n
            && var f, f' := c.nodes[p], c'.nodes[p];
               && f'.role == Follower && f'.currentTerm == f.currentTerm && f'.votedFor == f.votedFor
               && f'.logs == f.stable.logs <= f.logs && f'.stable == f.stable && f'.snapshot == f.snapshot
               && f'.commitIndex == f'.lastApplied == FirstIndex(f'.logs) && f'.pending == {}
               && |f'.nextIndex| == |f'.matchIndex| == n
               && forall q :: 0 <= q < n ==> f'.nextIndex[q] == LastIndex(f') + 1 && f'.matchIndex[q] == 0
  {
    hide Reachable, B.NodeOk, T.NodeOk, E.Supporters;
    SoundNode(n, c, p);
    Stored(n, c, p);
  }

  lemma Stored(n: nat, c: Cluster, p: nat)
    requires Reachable(n, c) && p < n == |c.nodes|
    ensures c.nodes[p].stable.logs <= c.nodes[p].logs
  {
    hide Exec, IsRun;
    var steps :| IsRun(Init(n), steps) && c == Exec(Init(n), steps);
    T.D.StoredIsPrefix(n, steps);
  }
}
