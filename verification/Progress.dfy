/**
 * What a leader can get done: with a majority that answers, whatever Start appended is committed,
 * by exchanges with one peer after the other until each has the leader's log.
 */
module Progress {
  import opened Types
  import opened LogStore
  import opened Rpc
  import opened Median
  import opened Handlers
  import opened Cluster
  import opened Lockstep
  import opened Backup
  import Bounds
  import Loss
  import Safety

  /** Nothing but q and what the leader p knows of q has changed, and p may have committed more. */
  predicate Frame(c: Cluster, c': Cluster, p: nat, q: nat) {
    && |c'.nodes| == |c.nodes| && p < |c.nodes|
    && (forall w :: 0 <= w < |c.nodes| && w != p && w != q ==> c'.nodes[w] == c.nodes[w])
    && var l, l' := c.nodes[p], c'.nodes[p];
       && l'.me == l.me && l'.role == l.role && l'.currentTerm == l.currentTerm && l'.logs == l.logs
       && l'.commitIndex >= l.commitIndex
       && |l'.nextIndex| == |l.nextIndex| && |l'.matchIndex| == |l.matchIndex|
       && (forall w :: 0 <= w < |l.nextIndex| && w != q ==> l'.nextIndex[w] == l.nextIndex[w])
       && (forall w :: 0 <= w < |l.matchIndex| && w != q ==> l'.matchIndex[w] == l.matchIndex[w])
  }

  lemma ReplyFrame(l: Node, q: nat, a: AppendRequest, r: AppendResponse)
    requires r.term <= l.currentTerm
    ensures var l' := HandleAppendResponse(l, q, a, r);
            && l'.me == l.me && l'.role == l.role && l'.currentTerm == l.currentTerm && l'.logs == l.logs
            && l'.commitIndex >= l.commitIndex
            && |l'.nextIndex| == |l.nextIndex| && |l'.matchIndex| == |l.matchIndex|
            && (forall w :: 0 <= w < |l.nextIndex| && w != q ==> l'.nextIndex[w] == l.nextIndex[w])
            && (forall w :: 0 <= w < |l.matchIndex| && w != q ==> l'.matchIndex[w] == l.matchIndex[w])
  {
    hide MedianOf, NextAfter, MatchLog;
  }

  lemma AnswerTerm(f: Node, a: AppendRequest)
    requires f.currentTerm <= a.term
    ensures HandleAppend(f, a).1.term == a.term
  {
    hide Splice, ScanBack;
  }

  lemma ExchangeFrame(c: Cluster, p: nat, q: nat)
    requires MayTalk(c, p, q) && c.nodes[p].role == Leader && c.nodes[q].currentTerm <= c.nodes[p].currentTerm
    ensures IsRun(c, ExchangeSteps(c, p, q)) && Loss.NoCrash(ExchangeSteps(c, p, q))
    ensures Frame(c, Exchange(c, p, q), p, q)
  {
    hide HandleAppend, HandleAppendResponse, IsRun, ExchangeSteps, Exec, GenAppend;
    Loss.ExchangeNoCrash(c, p, q);
    match ReplicateOneRound(c.nodes[p], q) {
      case Silent =>
        SilentExchange(c, p, q);
      case Entries(a) =>
        SentTerm(c.nodes[p], q, a);
        AppendExchange(c, p, q, a);
        AnswerTerm(c.nodes[q], a);
        ReplyFrame(c.nodes[p], q, a, HandleAppend(c.nodes[q], a).1);
      case Snap(a) =>
        SnapExchange(c, p, q, a);
    }
  }

  lemma SentTerm(l: Node, q: nat, a: AppendRequest)
    requires ReplicateOneRound(l, q) == Entries(a)
    ensures a.term == l.currentTerm
  {
  }

  lemma SilentExchange(c: Cluster, p: nat, q: nat)
    requires p < |c.nodes| && q < |c.nodes| && ReplicateOneRound(c.nodes[p], q) == Silent
    ensures IsRun(c, ExchangeSteps(c, p, q)) && Exchange(c, p, q) == c
  {
    NoSteps(c);
  }

  lemma FrameOn(a: Cluster, b: Cluster, c: Cluster, p: nat, q: nat)
    requires Frame(a, b, p, q) && Frame(b, c, p, q)
    ensures Frame(a, c, p, q)
  {
  }

  /** The leader's last entry is of its term; then it commits everything once a majority has it. */
  predicate Commits(l: Node) {
    LastLog(l.logs).term == l.currentTerm && Majority(Reached(l.matchIndex, LastIndex(l)), |l.matchIndex|) ==>
      l.commitIndex >= LastIndex(l)
  }

  lemma CountingCommits(n: Node)
    requires |n.matchIndex| > 0 && Contiguous(n.logs) && forall q :: 0 <= q < |n.matchIndex| ==> n.matchIndex[q] <= LastIndex(n)
    ensures Commits(LeaderCommit(n))
  {
    hide MedianOf, Reached;
    if LastLog(n.logs).term == n.currentTerm && Majority(Reached(n.matchIndex, LastIndex(n)), |n.matchIndex|) {
      ReachedSize(n.matchIndex, LastIndex(n));
      MedianRule(n.matchIndex, LastIndex(n));
      MedianMajority(n.matchIndex);
      var q :| q in Reached(n.matchIndex, MedianOf(n.matchIndex));
      AtLeast(n.matchIndex, MedianOf(n.matchIndex), q);
      Bounds.Ends(n.logs);
    }
  }

  lemma AtLeast(m: seq<nat>, x: nat, q: nat)
    requires q in Reached(m, x)
    ensures q < |m| && m[q] >= x
  {
  }

  /** What the leader knows to match lies in its log. */
  predicate MatchesIn(l: Node) {
    forall w :: 0 <= w < |l.matchIndex| ==> l.matchIndex[w] <= LastIndex(l)
  }

  lemma AcceptedCommits(c: Cluster, p: nat, q: nat)
    requires Ready(c, p, q) && ProbeAccepted(c, p, q) && MatchesIn(c.nodes[p])
    ensures p < |Exchange(c, p, q).nodes| && Commits(Exchange(c, p, q).nodes[p])
  {
    hide HandleAppend, NextAfter, NextTry, Accepts, LogPair, Exchange, ExchangeSteps, LeaderCommit, Commits;
    var l, f := c.nodes[p], c.nodes[q];
    var a := GenAppend(l, l.nextIndex[q] - 1);
    PairBasics(l.logs, f.logs);
    ProbeIs(l, f, l.nextIndex[q]);
    AppendExchange(c, p, q, a);
    CountingCommits(l.(matchIndex := l.matchIndex[q := |l.logs| - 1], nextIndex := l.nextIndex[q := |l.logs|]));
  }

  /** Exchanges with one peer whose search settles, until it has the leader's log. */
  lemma {:induction false} CatchesUp(c: Cluster, p: nat, q: nat) returns (c': Cluster, steps: seq<Step>)
    requires Ready(c, p, q) && SettlesAt(c, p, q) && MatchesIn(c.nodes[p])
    ensures IsRun(c, steps) && c' == Exec(c, steps) && Loss.NoCrash(steps) && Frame(c, c', p, q)
    ensures q < |c'.nodes[p].matchIndex| && c'.nodes[p].matchIndex[q] == LastIndex(c.nodes[p]) && Commits(c'.nodes[p])
    ensures HasLog(c'.nodes[q].logs, c.nodes[p].logs)
    decreases if c.nodes[p].nextIndex[q] == 0 then 1 else if c.nodes[p].nextIndex[q] == 1 then 0 else c.nodes[p].nextIndex[q]
  {
    hide Accepts, NextTry, LogPair, HasLog, IsRun, ExchangeSteps, Commits, MatchesIn, Frame, Exec;
    var l, f := c.nodes[p], c.nodes[q];
    var next := l.nextIndex[q];
    PairBasics(l.logs, f.logs);
    ExchangeFrame(c, p, q);
    var mid := Exchange(c, p, q);
    if ProbeAccepted(c, p, q) {
      AcceptedExchange(c, p, q);
      AcceptedCommits(c, p, q);
      c', steps := mid, ExchangeSteps(c, p, q);
    } else {
      if next > 0 {
        RejectionMoves(l.logs, f.logs, next);
      }
      UnsettledExchange(c, p, q);
      StaysIn(c, mid, p, q);
      var more;
      c', more := CatchesUp(mid, p, q);
      FrameOn(c, mid, c', p, q);
      SameLast(c, mid, p, q);
      Chain(c, ExchangeSteps(c, p, q), more);
      steps := ExchangeSteps(c, p, q) + more;
    }
  }

  lemma StaysIn(c: Cluster, mid: Cluster, p: nat, q: nat)
    requires Frame(c, mid, p, q) && MatchesIn(c.nodes[p])
    requires q < |c.nodes[p].matchIndex| && mid.nodes[p].matchIndex[q] <= c.nodes[p].matchIndex[q]
    ensures MatchesIn(mid.nodes[p])
  {
    forall w | 0 <= w < |mid.nodes[p].matchIndex|
      ensures mid.nodes[p].matchIndex[w] <= LastIndex(mid.nodes[p])
    {
      assert c.nodes[p].matchIndex[w] <= LastIndex(c.nodes[p]);
    }
  }

  lemma SameLast(c: Cluster, mid: Cluster, p: nat, q: nat)
    requires Frame(c, mid, p, q)
    ensures p < |c.nodes| == |mid.nodes| && mid.nodes[p].logs == c.nodes[p].logs
  {
  }

  // ---------- One peer after the other ----------

  ghost predicate MayCatchUp(c: Cluster, p: nat, q: nat) {
    Ready(c, p, q) && SettlesAt(c, p, q)
  }

  /** What one peer does leaves another as ready as it was. */
  lemma StillMay(c: Cluster, c': Cluster, p: nat, q: nat, w: nat)
    requires Frame(c, c', p, q) && MayCatchUp(c, p, w) && w != q
    ensures MayCatchUp(c', p, w)
  {
    hide LogPair, Settles;
  }

  lemma CaughtUp(c: Cluster, c': Cluster, p: nat, q: nat)
    requires Frame(c, c', p, q) && MatchesIn(c.nodes[p])
    requires q < |c'.nodes[p].matchIndex| && c'.nodes[p].matchIndex[q] == LastIndex(c.nodes[p])
    ensures MatchesIn(c'.nodes[p]) && LastIndex(c'.nodes[p]) == LastIndex(c.nodes[p])
    ensures forall w :: 0 <= w < |c.nodes[p].matchIndex| && w != q ==> c'.nodes[p].matchIndex[w] == c.nodes[p].matchIndex[w]
  {
  }

  /** The leader is where it was, with every peer of the list at its last entry. */
  predicate AllMatched(c: Cluster, c': Cluster, p: nat, peers: seq<nat>) {
    && |c'.nodes| == |c.nodes| && p < |c.nodes|
    && var l, l' := c.nodes[p], c'.nodes[p];
       && l'.me == l.me && l'.role == l.role && l'.currentTerm == l.currentTerm && l'.logs == l.logs
       && l'.commitIndex >= l.commitIndex && |l'.matchIndex| == |l.matchIndex|
       && (forall i :: 0 <= i < |peers| ==> peers[i] < |l.matchIndex| && l'.matchIndex[peers[i]] == LastIndex(l))
       && (p < |l.matchIndex| && p !in peers ==> l'.matchIndex[p] == l.matchIndex[p])
  }

  lemma {:induction false} AllCatchUp(c: Cluster, p: nat, peers: seq<nat>) returns (c': Cluster, steps: seq<Step>)
    requires p < |c.nodes| && MatchesIn(c.nodes[p]) && Distinct(peers)
    requires forall i :: 0 <= i < |peers| ==> MayCatchUp(c, p, peers[i])
    ensures IsRun(c, steps) && c' == Exec(c, steps) && Loss.NoCrash(steps)
    ensures AllMatched(c, c', p, peers) && MatchesIn(c'.nodes[p]) && (peers != [] ==> Commits(c'.nodes[p]))
    ensures forall q: nat :: q !in peers && MayCatchUp(c, p, q) ==> MayCatchUp(c', p, q)
    decreases |peers|
  {
    hide IsRun, Exec, Frame, MayCatchUp, Commits, MatchesIn, Ready, SettlesAt, HasLog, Distinct;
    if peers == [] {
      NoSteps(c);
      c', steps := c, [];
    } else {
      hide AllMatched;
      var init, q := peers[..|peers| - 1], Last(peers);
      LastApart(peers);
      assert forall i :: 0 <= i < |init| ==> init[i] == peers[i];
      var mid, first := AllCatchUp(c, p, init);
      Unfold(mid, p, q);
      SamePlace(c, mid, p, init);
      var more;
      c', more := CatchesUp(mid, p, q);
      CaughtUp(mid, c', p, q);
      Chain(c, first, more);
      steps := first + more;
      OneMoreMatched(c, mid, c', p, init, q);
      OthersStillMay(c, mid, c', p, init, q);
    }
  }

  lemma Unfold(c: Cluster, p: nat, q: nat)
    requires MayCatchUp(c, p, q)
    ensures Ready(c, p, q) && SettlesAt(c, p, q) && q != p && q < |c.nodes|
  {
  }

  lemma OthersStillMay(c: Cluster, mid: Cluster, c': Cluster, p: nat, init: seq<nat>, q: nat)
    requires Frame(mid, c', p, q)
    requires forall w: nat :: w !in init && MayCatchUp(c, p, w) ==> MayCatchUp(mid, p, w)
    ensures forall w: nat :: w !in init + [q] && MayCatchUp(c, p, w) ==> MayCatchUp(c', p, w)
  {
    hide Frame, MayCatchUp;
    forall w: nat | w !in init + [q] && MayCatchUp(c, p, w)
      ensures MayCatchUp(c', p, w)
    {
      assert (init + [q])[|init|] == q;
      assert forall i :: 0 <= i < |init| ==> (init + [q])[i] == init[i];
      StillMay(mid, c', p, q, w);
    }
  }

  lemma LastApart(peers: seq<nat>)
    requires Distinct(peers) && peers != []
    ensures Distinct(peers[..|peers| - 1]) && Last(peers) !in peers[..|peers| - 1]
    ensures peers == peers[..|peers| - 1] + [Last(peers)]
  {
  }

  lemma SamePlace(c: Cluster, mid: Cluster, p: nat, peers: seq<nat>)
    requires AllMatched(c, mid, p, peers)
    ensures p < |c.nodes| == |mid.nodes|
  {
  }

  lemma OneMoreMatched(c: Cluster, mid: Cluster, c': Cluster, p: nat, init: seq<nat>, q: nat)
    requires AllMatched(c, mid, p, init) && Frame(mid, c', p, q) && q !in init && q != p
    requires q < |c'.nodes[p].matchIndex| && c'.nodes[p].matchIndex[q] == LastIndex(mid.nodes[p])
    ensures AllMatched(c, c', p, init + [q])
  {
    var peers := init + [q];
    forall i | 0 <= i < |peers|
      ensures peers[i] < |c.nodes[p].matchIndex| && c'.nodes[p].matchIndex[peers[i]] == LastIndex(c.nodes[p])
    {
      if i < |init| {
        assert peers[i] == init[i];
      }
    }
  }

  // ---------- What Start appended is committed ----------

  /**
   * If a leader's last entry is of its term, it knows itself to match it, and together with peers
   * whose searches settle it is a majority, then it commits its whole log.
   */
  lemma CommitsWithMajority(c: Cluster, p: nat, peers: seq<nat>) returns (c': Cluster, steps: seq<Step>)
    requires p < |c.nodes| && |c.nodes[p].matchIndex| == |c.nodes| && MatchesIn(c.nodes[p])
    requires var l := c.nodes[p]; LastLog(l.logs).term == l.currentTerm && l.matchIndex[p] == LastIndex(l)
    requires Distinct(peers) && peers != [] && 2 * (|peers| + 1) > |c.nodes|
    requires forall i :: 0 <= i < |peers| ==> MayCatchUp(c, p, peers[i])
    ensures IsRun(c, steps) && c' == Exec(c, steps) && Loss.NoCrash(steps) && |c'.nodes| == |c.nodes|
    ensures var l, l' := c.nodes[p], c'.nodes[p];
            l'.role == l.role && l'.currentTerm == l.currentTerm && l'.logs == l.logs && l'.commitIndex >= LastIndex(l)
  {
    hide IsRun, Exec, MayCatchUp;
    forall i | 0 <= i < |peers|
      ensures peers[i] != p && peers[i] < |c.nodes|
    {
      Unfold(c, p, peers[i]);
    }
    c', steps := AllCatchUp(c, p, peers);
    EnoughMatch(c, c', p, peers);
  }

  lemma EnoughMatch(c: Cluster, c': Cluster, p: nat, peers: seq<nat>)
    requires AllMatched(c, c', p, peers) && |c.nodes[p].matchIndex| == |c.nodes| && c.nodes[p].matchIndex[p] == LastIndex(c.nodes[p])
    requires Distinct(peers) && 2 * (|peers| + 1) > |c.nodes| && p !in peers
    ensures Majority(Reached(c'.nodes[p].matchIndex, LastIndex(c'.nodes[p])), |c'.nodes[p].matchIndex|)
  {
    var s := Loss.Elements(peers);
    Loss.ElementsCount(peers);
    assert s + {p} <= Reached(c'.nodes[p].matchIndex, LastIndex(c.nodes[p]));
    SubsetSize(s + {p}, Reached(c'.nodes[p].matchIndex, LastIndex(c.nodes[p])));
  }

  /**
   * In any state of a durable run in which the leader and so many peers, none past its term, have
   * compacted nothing that together they are a majority: what Start now appends can be committed,
   * without another crash, at the index Start returned.
   */
  lemma StartIsCommitted(n: nat, steps: seq<Step>, p: nat, cmd: Command, peers: seq<nat>) returns (more: seq<Step>)
    requires n > 0 && p < n && IsRun(Init(n), steps) && IsDurableRun(Init(n), steps) && |Exec(Init(n), steps).nodes| == n
    requires var l := Exec(Init(n), steps).nodes[p]; l.role == Leader && FirstIndex(l.logs) == 0
    requires Distinct(peers) && peers != [] && 2 * (|peers| + 1) > n
    requires forall i :: 0 <= i < |peers| ==>
               peers[i] < n && peers[i] != p &&
               var f := Exec(Init(n), steps).nodes[peers[i]];
               FirstIndex(f.logs) == 0 && f.currentTerm <= Exec(Init(n), steps).nodes[p].currentTerm
    ensures IsRun(Init(n), steps + ([Propose(p, cmd)] + more)) && Loss.NoCrash(more)
    ensures |Exec(Init(n), steps + ([Propose(p, cmd)] + more)).nodes| == n
    ensures var l, l' := Exec(Init(n), steps).nodes[p], Exec(Init(n), steps + ([Propose(p, cmd)] + more)).nodes[p];
            var i := LastIndex(l) + 1;
            && l'.role == Leader && l'.currentTerm == l.currentTerm && l'.logs == l.logs + [Entry(i, l.currentTerm, cmd)]
            && l'.commitIndex >= i && HasEntry(l'.logs, i, Entry(i, l.currentTerm, cmd))
  {
    hide IsRun, Exec, IsDurableRun, MayCatchUp;
    var c := Exec(Init(n), steps);
    var c1 := Do(c, Propose(p, cmd));
    One(c, Propose(p, cmd));
    Chain(Init(n), steps, [Propose(p, cmd)]);
    Loss.DurableJoin(Init(n), steps, [Propose(p, cmd)]);
    Appended(n, c, steps, p, cmd);
    forall i | 0 <= i < |peers|
      ensures MayCatchUp(c1, p, peers[i])
    {
      ReadyAfterStart(n, steps, p, cmd, peers[i]);
    }
    var c';
    c', more := CommitsWithMajority(c1, p, peers);
    Chain(c, [Propose(p, cmd)], more);
    Chain(Init(n), steps, [Propose(p, cmd)] + more);
  }

  lemma Appended(n: nat, c: Cluster, steps: seq<Step>, p: nat, cmd: Command)
    requires p < n && IsRun(Init(n), steps) && c == Exec(Init(n), steps) && |c.nodes| == n && c.nodes[p].role == Leader
    ensures var l, l' := c.nodes[p], Do(c, Propose(p, cmd)).nodes[p];
            var e := Entry(LastIndex(l) + 1, l.currentTerm, cmd);
            && |Do(c, Propose(p, cmd)).nodes| == n
            && l'.logs == l.logs + [e] && l'.role == Leader && l'.currentTerm == l.currentTerm
            && HasEntry(l'.logs, e.index, e) && LastIndex(l') == e.index && FirstIndex(l'.logs) == FirstIndex(l.logs)
            && |l'.matchIndex| == n && MatchesIn(l') && l'.matchIndex[p] == LastIndex(l')
    ensures forall q :: 0 <= q < n && q != p ==> Do(c, Propose(p, cmd)).nodes[q] == c.nodes[q]
  {
    hide IsRun, Exec, Bounds.Inv, Bounds.E.Inv;
    Bounds.RunOk(n, steps);
    Bounds.E.RunOk(n, steps);
    Bounds.GetNode(c, p);
    Bounds.E.GetNode(c, p);
    Bounds.Ends(c.nodes[p].logs);
  }

  lemma ReadyAfterStart(n: nat, steps: seq<Step>, p: nat, cmd: Command, q: nat)
    requires n > 0 && p < n && q < n && q != p && IsRun(Init(n), steps + [Propose(p, cmd)])
    requires IsDurableRun(Init(n), steps + [Propose(p, cmd)]) && IsRun(Init(n), steps)
    requires |Exec(Init(n), steps).nodes| == n && Exec(Init(n), steps + [Propose(p, cmd)]) == Do(Exec(Init(n), steps), Propose(p, cmd))
    requires var l, f := Exec(Init(n), steps).nodes[p], Exec(Init(n), steps).nodes[q];
             l.role == Leader && FirstIndex(l.logs) == 0 && FirstIndex(f.logs) == 0 && f.currentTerm <= l.currentTerm
    ensures MayCatchUp(Do(Exec(Init(n), steps), Propose(p, cmd)), p, q)
  {
    hide IsRun, Exec, IsDurableRun, LogPair, Do;
    var c1 := Do(Exec(Init(n), steps), Propose(p, cmd));
    Appended(n, Exec(Init(n), steps), steps, p, cmd);
    ReachablePair(n, steps + [Propose(p, cmd)], p, q);
    SettlesWhen(c1.nodes[p].logs, c1.nodes[q].logs, c1.nodes[p].nextIndex[q]);
  }
}
