/**
 * What stands behind a leader's commit: the match indices that a snapshot reply sets without
 * evidence never reach past the commit index, so above it only real acknowledgements count.
 */
module Acknowledged {
  import opened Types
  import opened LogStore
  import opened Rpc
  import opened Median
  import opened Handlers
  import opened Cluster
  import B = Bounds
  import E = Election

  /** q told this term's leader that its log matches through m. */
  ghost predicate Replied(c: Cluster, t: nat, q: nat, m: nat) {
    exists a, r :: ReplyAppend(q, a, r) in c.net && r.success && a.term == t && a.prevIndex + |a.entries| == m
  }

  ghost predicate Genuine(c: Cluster, p: nat) {
    p < |c.nodes| &&
    var n := c.nodes[p];
    n.role == Leader ==>
      forall q :: 0 <= q < |n.matchIndex| && q != p ==>
        n.matchIndex[q] <= n.commitIndex || Replied(c, n.currentTerm, q, n.matchIndex[q])
  }

  /** The server's leadership and match indices are as they were. */
  lemma StillGenuine(c: Cluster, c': Cluster, p: nat)
    requires Genuine(c, p) && p < |c'.nodes| && c.net <= c'.net
    requires var n, n' := c.nodes[p], c'.nodes[p];
             n'.role == Leader ==>
               && n.role == Leader && n'.currentTerm == n.currentTerm && n'.commitIndex >= n.commitIndex
               && |n'.matchIndex| == |n.matchIndex|
               && (forall q :: 0 <= q < |n.matchIndex| && q != p ==> n'.matchIndex[q] == n.matchIndex[q])
    ensures Genuine(c', p)
  {
    var n, n' := c.nodes[p], c'.nodes[p];
    if n'.role == Leader {
      forall q | 0 <= q < |n'.matchIndex| && q != p
        ensures n'.matchIndex[q] <= n'.commitIndex || Replied(c', n'.currentTerm, q, n'.matchIndex[q])
      {
        assert n.matchIndex[q] <= n.commitIndex || Replied(c, n.currentTerm, q, n.matchIndex[q]);
      }
    }
  }

  lemma ReplyGenuine(c: Cluster, p: nat, from: nat, a: AppendRequest, r: AppendResponse)
    requires Genuine(c, p) && ReplyAppend(from, a, r) in c.net
    ensures Genuine(Do(c, OnReplyAppend(p, from, a, r)), p)
  {
    hide MedianOf, NextAfter;
    var c' := Do(c, OnReplyAppend(p, from, a, r));
    var n, n' := c.nodes[p], c'.nodes[p];
    if n.role == Leader && n.currentTerm == a.term && r.success && n'.role == Leader {
      forall q | 0 <= q < |n'.matchIndex| && q != p
        ensures n'.matchIndex[q] <= n'.commitIndex || Replied(c', n'.currentTerm, q, n'.matchIndex[q])
      {
        assert q < |n.matchIndex| ==>
            n.matchIndex[q] <= n.commitIndex || Replied(c, n.currentTerm, q, n.matchIndex[q]);
      }
    } else {
      StillGenuine(c, c', p);
    }
  }

  lemma CoveredGenuine(c: Cluster, p: nat, from: nat, a: SnapRequest, r: SnapResponse)
    requires Genuine(c, p)
    requires c.nodes[p].role == Leader && c.nodes[p].currentTerm == a.term ==> a.lastIndex <= c.nodes[p].commitIndex
    ensures Genuine(Do(c, OnReplySnap(p, from, a, r)), p)
  {
    var c' := Do(c, OnReplySnap(p, from, a, r));
    var n, n' := c.nodes[p], c'.nodes[p];
    if n'.role == Leader {
      forall q | 0 <= q < |n'.matchIndex| && q != p
        ensures n'.matchIndex[q] <= n'.commitIndex || Replied(c', n'.currentTerm, q, n'.matchIndex[q])
      {
        assert n.matchIndex[q] <= n.commitIndex || Replied(c, n.currentTerm, q, n.matchIndex[q]);
      }
    }
  }

  /** What a snapshot request covers, its sender has compacted while it leads that term. */
  lemma SnapCovered(c: Cluster, p: nat, a: SnapRequest)
    requires E.Inv(c) && B.Inv(c) && p < |c.nodes| && B.SnapOk(c, a) && B.Leads(c.nodes[p], a.term)
    ensures a.lastIndex <= FirstIndex(c.nodes[p].logs) <= c.nodes[p].commitIndex
  {
    hide E.Inv, B.Inv, B.Elected;
    B.GetNode(c, p);
    B.SentByLeader(c, p, a.term, a.leader);
  }

  /**
   * In every run, whatever any crash loses, a snapshot request covers nothing that the leader of
   * its term has not compacted, and so nothing past its commit index.
   */
  lemma SnapshotsWithinCommit(n: nat, steps: seq<Step>, p: nat, to: nat, a: SnapRequest)
    requires p < n && IsRun(Init(n), steps) && AskSnap(to, a) in Exec(Init(n), steps).net
    requires B.Leads(Exec(Init(n), steps).nodes[p], a.term)
    ensures a.lastIndex <= FirstIndex(Exec(Init(n), steps).nodes[p].logs) <= Exec(Init(n), steps).nodes[p].commitIndex
  {
    hide Exec, IsRun, B.Inv, B.SnapOk, E.Inv;
    var c := Exec(Init(n), steps);
    E.RunOk(n, steps);
    B.RunOk(n, steps);
    B.GetMsg(c, AskSnap(to, a));
    SnapCovered(c, p, a);
  }

  lemma MovedGenuine(c: Cluster, s: Step)
    requires E.Inv(c) && B.Inv(c) && Enabled(c, s) && Genuine(c, s.p)
    ensures Genuine(Do(c, s), s.p)
  {
    hide E.Inv, B.Inv, B.SnapOk, Genuine, E.NodeOk, Do;
    var p := s.p;
    match s {
      case OnReplyVote(_, from, ask, vote) => VoteGenuine(c, p, from, ask, vote);
      case OnReplyAppend(_, from, a, r) => ReplyGenuine(c, p, from, a, r);
      case OnReplySnap(_, from, a, r) =>
        B.GetMsg(c, ReplySnap(from, a, r));
        if B.Leads(c.nodes[p], a.term) {
          SnapCovered(c, p, a);
        }
        CoveredGenuine(c, p, from, a, r);
      case Propose(_, cmd) =>
        E.GetNode(c, p);
        ProposeGenuine(c, p, cmd);
      case _ => OtherGenuine(c, s);
    }
  }

  lemma ProposeGenuine(c: Cluster, p: nat, cmd: Command)
    requires p < |c.nodes| && E.NodeOk(c, p) && Genuine(c, p)
    ensures Genuine(Do(c, Propose(p, cmd)), p)
  {
    hide Genuine, E.NodeOk;
    KnowsItself(c, p);
    StillGenuine(c, Do(c, Propose(p, cmd)), p);
  }

  /** No other step touches the match indices of a leader that leads on. */
  lemma OtherGenuine(c: Cluster, s: Step)
    requires s.p < |c.nodes| && Genuine(c, s.p)
    requires !s.OnReplyVote? && !s.OnReplyAppend? && !s.OnReplySnap? && !s.Propose?
    ensures s.p < |Do(c, s).nodes| && Genuine(Do(c, s), s.p)
  {
    hide Splice, ScanBack, Trim, InstalledLog, Genuine;
    StillGenuine(c, Do(c, s), s.p);
  }

  lemma KnowsItself(c: Cluster, p: nat)
    requires p < |c.nodes| && E.NodeOk(c, p)
    ensures c.nodes[p].me == p
  {
  }

  lemma VoteGenuine(c: Cluster, p: nat, from: nat, ask: VoteRequest, vote: VoteResponse)
    requires Genuine(c, p)
    ensures Genuine(Do(c, OnReplyVote(p, from, ask, vote)), p)
  {
    var c' := Do(c, OnReplyVote(p, from, ask, vote));
    if c.nodes[p].role == Leader {
      StillGenuine(c, c', p);
    }
  }

  lemma StepGenuine(c: Cluster, s: Step, p: nat)
    requires E.Inv(c) && B.Inv(c) && Enabled(c, s) && p < |c.nodes| && Genuine(c, p)
    ensures Genuine(Do(c, s), p)
  {
    hide E.Inv, B.Inv, Genuine, Do, E.MsgOk, Enabled;
    E.EnabledServer(c, s);
    if p == s.p {
      MovedGenuine(c, s);
    } else {
      E.NewMessages(c, s);
      DoGrows(c, s);
      StillGenuine(c, Do(c, s), p);
    }
  }

  lemma {:induction false} RunGenuine(n: nat, steps: seq<Step>, p: nat)
    requires p < n && IsRun(Init(n), steps)
    ensures Genuine(Exec(Init(n), steps), p)
    decreases |steps|
  {
    hide Do, Enabled, B.Inv, E.Inv;
    if steps != [] {
      var init := steps[..|steps| - 1];
      RunGenuine(n, init, p);
      E.RunOk(n, init);
      B.RunOk(n, init);
      E.EnabledServer(Exec(Init(n), init), Last(steps));
      StepGenuine(Exec(Init(n), init), Last(steps), p);
    }
  }

  /** The match indices as they stand when the leader counts them: the reply at hand included. */
  lemma CountedReplies(c: Cluster, p: nat, from: nat, a: AppendRequest, r: AppendResponse) returns (counted: seq<nat>)
    requires Genuine(c, p) && ReplyAppend(from, a, r) in c.net
    requires Do(c, OnReplyAppend(p, from, a, r)).nodes[p].commitIndex > c.nodes[p].commitIndex
    ensures |Do(c, OnReplyAppend(p, from, a, r)).nodes| == |c.nodes|
    ensures |counted| == |c.nodes[p].matchIndex| > 0
    ensures Do(c, OnReplyAppend(p, from, a, r)).nodes[p].commitIndex == MedianOf(counted)
    ensures forall q :: 0 <= q < |counted| && q != p && counted[q] >= MedianOf(counted) ==>
              Replied(c, c.nodes[p].currentTerm, q, counted[q])
  {
    hide MedianOf, NextAfter, MatchLog, Replied;
    var n := c.nodes[p];
    counted := n.matchIndex[from := a.prevIndex + |a.entries|];
    SaysReplied(c, from, a, r);
    forall q | 0 <= q < |counted| && q != p && counted[q] >= MedianOf(counted)
      ensures Replied(c, n.currentTerm, q, counted[q])
    {
      assert q != from ==> counted[q] == n.matchIndex[q];
    }
  }

  lemma SaysReplied(c: Cluster, from: nat, a: AppendRequest, r: AppendResponse)
    requires ReplyAppend(from, a, r) in c.net && r.success && a.prevIndex + |a.entries| >= 0
    ensures Replied(c, a.term, from, a.prevIndex + |a.entries|)
  {
  }

  /**
   * Every commit is acknowledged, in every run and whatever any crash loses: when a reply makes
   * the leader move its commit index to i, a majority of the servers, counting the leader, has
   * replied with success in its term to a request reaching at least i.  What a snapshot reply
   * sets without evidence never counts.
   */
  lemma CommitsAreAcknowledged(n: nat, steps: seq<Step>, p: nat, from: nat, a: AppendRequest, r: AppendResponse)
    returns (backers: set<nat>)
    requires p < n && IsRun(Init(n), steps)
    requires Enabled(Exec(Init(n), steps), OnReplyAppend(p, from, a, r))
    requires var c := Exec(Init(n), steps);
             Do(c, OnReplyAppend(p, from, a, r)).nodes[p].commitIndex > c.nodes[p].commitIndex
    ensures Majority(backers, n)
    ensures var c := Exec(Init(n), steps);
            var i := Do(c, OnReplyAppend(p, from, a, r)).nodes[p].commitIndex;
            forall q :: q in backers ==>
              q < n && (q == p || exists m :: m >= i && Replied(c, c.nodes[p].currentTerm, q, m))
  {
    hide Exec, IsRun, E.Inv, Replied, MedianOf, Do;
    var c := Exec(Init(n), steps);
    RunGenuine(n, steps, p);
    E.RunOk(n, steps);
    E.GetNode(c, p);
    var counted := CountedReplies(c, p, from, a, r);
    var l, i := c.nodes[p], MedianOf(counted);
    backers := Reached(counted, i);
    MedianMajority(counted);
    forall q | q in backers && q != p
      ensures exists m :: m >= i && Replied(c, l.currentTerm, q, m)
    {
      assert Replied(c, l.currentTerm, q, counted[q]);
    }
  }
}
