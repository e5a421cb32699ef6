/**
 * Election Safety on the cluster, with crashes allowed at any moment: nothing here depends on
 * what a crash does to the log, only on the term and the vote being stored before they show.
 */
module Election {
  import opened Types
  import opened LogStore
  import opened Rpc
  import opened Handlers
  import opened Median
  import opened Cluster

  function Supporters(c: Cluster, t: nat, cand: nat): set<nat> {
    set v: nat | v < |c.nodes| && Vote(v, t, cand) in c.votes
  }

  ghost predicate NodeOk(c: Cluster, p: nat)
    requires p < |c.nodes|
  {
    var n := c.nodes[p];
    && n.me == p && n.peers == |c.nodes|
    && |n.nextIndex| == n.peers && |n.matchIndex| == n.peers
    && n.stable.term == n.currentTerm && n.stable.votedFor == n.votedFor
    && (n.role == Candidate ==>
          && n.votedFor == p
          && Vote(p, n.currentTerm, p) in c.votes
          && p !in n.answered
          && n.grantedVotes <= 1 + |Supporters(c, n.currentTerm, p) * n.answered|)
    && (n.role == Leader ==> Majority(Supporters(c, n.currentTerm, p), |c.nodes|))
  }

  /** A recorded vote is the one its voter is bound by. */
  ghost predicate VoteBinds(c: Cluster, w: Vote) {
    && w.who < |c.nodes|
    && w.term <= c.nodes[w.who].currentTerm
    && (w.term == c.nodes[w.who].currentTerm ==> c.nodes[w.who].votedFor == w.cand)
  }

  ghost predicate MsgOk(c: Cluster, m: Msg) {
    match m
    case ReplyVote(from, ask, vote) => from != ask.cand && (vote.granted ==> Vote(from, ask.term, ask.cand) in c.votes)
    case _ => true
  }

  ghost predicate OneVote(c: Cluster) {
    forall w, x :: w in c.votes && x in c.votes && w.who == x.who && w.term == x.term ==> w.cand == x.cand
  }

  ghost predicate Inv(c: Cluster) {
    && (forall p :: 0 <= p < |c.nodes| ==> NodeOk(c, p))
    && (forall w :: w in c.votes ==> VoteBinds(c, w))
    && (forall m :: m in c.net ==> MsgOk(c, m))
    && OneVote(c)
  }

  /** Two candidates of one term cannot both have a majority behind them. */
  lemma OneMajority(c: Cluster, t: nat, p: nat, q: nat)
    requires OneVote(c)
    requires Majority(Supporters(c, t, p), |c.nodes|) && Majority(Supporters(c, t, q), |c.nodes|)
    ensures p == q
  {
    var v := MajoritiesMeet(Supporters(c, t, p), Supporters(c, t, q), |c.nodes|);
    assert Vote(v, t, p) in c.votes && Vote(v, t, q) in c.votes;
  }

  lemma InitOk(n: nat)
    ensures Inv(Init(n))
  {
  }

  /** Growing the record keeps what was true of a server that did not move. */
  lemma StillOk(c: Cluster, c': Cluster, p: nat)
    requires p < |c.nodes| == |c'.nodes| && c'.nodes[p] == c.nodes[p] && c.votes <= c'.votes && NodeOk(c, p)
    ensures NodeOk(c', p)
  {
    var n := c.nodes[p];
    SubsetSize(Supporters(c, n.currentTerm, p), Supporters(c', n.currentTerm, p));
    SubsetSize(Supporters(c, n.currentTerm, p) * n.answered, Supporters(c', n.currentTerm, p) * n.answered);
  }

  /**
   * One server moves to n'.  Its new votes are for the term it ends in, and it keeps the vote
   * it had if it stays in its term.
   */
  lemma Moves(c: Cluster, c': Cluster, p: nat)
    requires Inv(c) && p < |c.nodes| && |c'.nodes| == |c.nodes|
    requires forall q :: 0 <= q < |c.nodes| && q != p ==> c'.nodes[q] == c.nodes[q]
    requires c.votes <= c'.votes && NodeOk(c', p)
    requires c'.nodes[p].currentTerm >= c.nodes[p].currentTerm
    requires c'.nodes[p].currentTerm == c.nodes[p].currentTerm ==>
               c'.nodes[p].votedFor == c.nodes[p].votedFor || c.nodes[p].votedFor == -1
    requires forall w :: w in c'.votes && w !in c.votes ==>
               w.who == p && w.term == c'.nodes[p].currentTerm && w.cand == c'.nodes[p].votedFor
    requires forall m :: m in c'.net && m !in c.net ==> MsgOk(c', m)
    ensures Inv(c')
  {
    forall q | 0 <= q < |c.nodes|
      ensures NodeOk(c', q)
    {
      if q != p {
        StillOk(c, c', q);
      }
    }
    forall w | w in c'.votes
      ensures VoteBinds(c', w)
    {
      if w in c.votes {
        assert VoteBinds(c, w);
      }
    }
    assert OneVote(c');
    forall m | m in c'.net
      ensures MsgOk(c', m)
    {
      if m in c.net {
        assert MsgOk(c, m);
      }
    }
  }

  lemma OneMoreSupporter(s: set<nat>, answered: set<nat>, from: nat, p: nat)
    requires from in s && p in s && from !in answered && p !in answered && from != p
    ensures |s * (answered + {from})| == |s * answered| + 1 < |s|
  {
    assert s * (answered + {from}) == s * answered + {from};
    SubsetSize(s * (answered + {from}), s - {p});
  }

  lemma VoteCounted(c: Cluster, p: nat, from: nat, ask: VoteRequest, vote: VoteResponse)
    requires p < |c.nodes| && NodeOk(c, p) && MsgOk(c, ReplyVote(from, ask, vote)) && ask.cand == p
    requires forall w :: w in c.votes ==> VoteBinds(c, w)
    requires c.nodes[p].currentTerm == ask.term ==> from !in c.nodes[p].answered
    ensures NodeOk(Put(c, p, HandleVoteResponse(c.nodes[p], from, ask, vote)), p)
  {
    var n := c.nodes[p];
    var c' := Put(c, p, HandleVoteResponse(n, from, ask, vote));
    var n' := c'.nodes[p];
    if n.currentTerm == ask.term && n.role == Candidate {
      var s := Supporters(c, n.currentTerm, p);
      assert Supporters(c', n.currentTerm, p) == s;
      var answered := n.answered + {from};
      if vote.granted {
        assert VoteBinds(c, Vote(from, ask.term, p));
        OneMoreSupporter(s, n.answered, from, p);
      } else {
        SubsetSize(s * n.answered, s * answered);
      }
    }
  }

  lemma AppendResponseOk(c: Cluster, p: nat, from: nat, req: AppendRequest, resp: AppendResponse)
    requires p < |c.nodes| && NodeOk(c, p)
    ensures NodeOk(Put(c, p, HandleAppendResponse(c.nodes[p], from, req, resp)), p)
  {
    var n := c.nodes[p];
    var c' := Put(c, p, HandleAppendResponse(n, from, req, resp));
    assert Supporters(c', n.currentTerm, p) == Supporters(c, n.currentTerm, p);
  }

  lemma SnapResponseOk(c: Cluster, p: nat, from: nat, req: SnapRequest, resp: SnapResponse)
    requires p < |c.nodes| && NodeOk(c, p)
    ensures NodeOk(Put(c, p, HandleSnapResponse(c.nodes[p], from, req, resp)), p)
  {
    var n := c.nodes[p];
    var c' := Put(c, p, HandleSnapResponse(n, from, req, resp));
    assert Supporters(c', n.currentTerm, p) == Supporters(c, n.currentTerm, p);
  }

  /** Steps that change neither term, vote nor role of the server. */
  lemma QuietOk(c: Cluster, c': Cluster, p: nat)
    requires p < |c.nodes| == |c'.nodes| && NodeOk(c, p) && c'.votes == c.votes
    requires var n, n' := c.nodes[p], c'.nodes[p];
             && n'.me == n.me && n'.peers == n.peers && |n'.nextIndex| == |n.nextIndex| && |n'.matchIndex| == |n.matchIndex|
             && n'.currentTerm == n.currentTerm && n'.votedFor == n.votedFor && n'.role == n.role
             && n'.stable.term == n.currentTerm && n'.stable.votedFor == n.votedFor
             && n'.grantedVotes == n.grantedVotes && n'.answered == n.answered
    ensures NodeOk(c', p)
  {
    assert Supporters(c', c.nodes[p].currentTerm, p) == Supporters(c, c.nodes[p].currentTerm, p);
  }

  /** Steps after which the server is a follower. */
  lemma FollowerOk(c: Cluster, c': Cluster, p: nat)
    requires p < |c.nodes| == |c'.nodes| && NodeOk(c, p)
    requires var n, n' := c.nodes[p], c'.nodes[p];
             && n'.me == n.me && n'.peers == n.peers && |n'.nextIndex| == |n.nextIndex| && |n'.matchIndex| == |n.matchIndex|
             && n'.role == Follower
             && n'.stable.term == n'.currentTerm && n'.stable.votedFor == n'.votedFor
    ensures NodeOk(c', p)
  {
  }

  lemma AskVoteOk(c: Cluster, p: nat, ask: VoteRequest)
    requires p < |c.nodes| && NodeOk(c, p) && ask.cand != p
    ensures NodeOk(Do(c, OnAskVote(p, ask)), p)
  {
    var c' := Do(c, OnAskVote(p, ask));
    var n, n' := c.nodes[p], c'.nodes[p];
    SubsetSize(Supporters(c, n.currentTerm, p), Supporters(c', n.currentTerm, p));
    SubsetSize(Supporters(c, n.currentTerm, p) * n.answered, Supporters(c', n.currentTerm, p) * n.answered);
  }

  /** The new state of the server that moved. */
  lemma MovedNode(c: Cluster, s: Step)
    requires Inv(c) && Enabled(c, s)
    ensures NodeOk(Do(c, s), s.p)
  {
    hide Inv, NodeOk, MsgOk, Supporters;
    var c', p := Do(c, s), s.p;
    GetNode(c, p);
    match s {
      case Elect(_) => ElectOk(c, p);
      case OnAskVote(_, ask) => AskVoteOk(c, p, ask);
      case OnReplyVote(_, from, ask, vote) =>
        GetMsg(c, ReplyVote(from, ask, vote));
        VoteCounted(c, p, from, ask, vote);
      case OnReplyAppend(_, from, append, appended) => AppendResponseOk(c, p, from, append, appended);
      case OnReplySnap(_, from, snap, snapped) => SnapResponseOk(c, p, from, snap, snapped);
      case OnAskAppend(_, append) => AskAppendOk(c, p, append);
      case OnAskSnap(_, snap) => AskSnapOk(c, p, snap);
      case CrashRestart(_) => RestartOk(c, p);
      case Propose(_, cmd) => QuietStepOk(c, s);
      case Replicate(_, _) => QuietStepOk(c, s);
      case Install(_, _) => QuietStepOk(c, s);
      case TakeSnapshot(_, _) => QuietStepOk(c, s);
      case EndBatch(_, _) => QuietStepOk(c, s);
    }
  }

  lemma GetNode(c: Cluster, p: nat)
    requires Inv(c) && p < |c.nodes|
    ensures NodeOk(c, p) && forall w :: w in c.votes ==> VoteBinds(c, w)
  {
  }

  lemma GetMsg(c: Cluster, m: Msg)
    requires Inv(c) && m in c.net
    ensures MsgOk(c, m)
  {
  }

  lemma ElectOk(c: Cluster, p: nat)
    requires p < |c.nodes| && NodeOk(c, p)
    ensures NodeOk(Do(c, Elect(p)), p)
  {
    var c' := Do(c, Elect(p));
    assert Vote(p, c'.nodes[p].currentTerm, p) in c'.votes;
  }

  lemma AskAppendOk(c: Cluster, p: nat, append: AppendRequest)
    requires p < |c.nodes| && NodeOk(c, p)
    ensures NodeOk(Do(c, OnAskAppend(p, append)), p)
  {
    hide Splice;
    var c' := Do(c, OnAskAppend(p, append));
    if append.term >= c.nodes[p].currentTerm {
      FollowerOk(c, c', p);
    } else {
      QuietOk(c, c', p);
    }
  }

  lemma AskSnapOk(c: Cluster, p: nat, snap: SnapRequest)
    requires p < |c.nodes| && NodeOk(c, p)
    ensures NodeOk(Do(c, OnAskSnap(p, snap)), p)
  {
    var c' := Do(c, OnAskSnap(p, snap));
    if snap.term >= c.nodes[p].currentTerm {
      FollowerOk(c, c', p);
    } else {
      QuietOk(c, c', p);
    }
  }

  lemma RestartOk(c: Cluster, p: nat)
    requires p < |c.nodes| && NodeOk(c, p)
    ensures NodeOk(Do(c, CrashRestart(p)), p)
  {
    FollowerOk(c, Do(c, CrashRestart(p)), p);
  }

  lemma QuietStepOk(c: Cluster, s: Step)
    requires s.p < |c.nodes| && NodeOk(c, s.p)
    requires s.Propose? || s.Replicate? || s.Install? || s.TakeSnapshot? || s.EndBatch?
    ensures NodeOk(Do(c, s), s.p)
  {
    hide InstalledLog, Trim;
    QuietOk(c, Do(c, s), s.p);
  }

  /** The term never falls and a vote, once cast, stands for the rest of its term. */
  lemma TermAndVote(c: Cluster, s: Step)
    requires Inv(c) && Enabled(c, s)
    ensures var n, n' := c.nodes[s.p], Do(c, s).nodes[s.p];
            && n'.currentTerm >= n.currentTerm
            && (n'.currentTerm == n.currentTerm ==> n'.votedFor == n.votedFor || n.votedFor == -1)
            && (forall w :: w in Do(c, s).votes && w !in c.votes ==>
                  w.who == s.p && w.term == n'.currentTerm && w.cand == n'.votedFor)
  {
    hide Splice, MedianOf, OneVote, InstalledLog, Trim, NextAfter;
    assert NodeOk(c, s.p);
  }

  lemma NewMessages(c: Cluster, s: Step)
    requires Enabled(c, s)
    ensures forall m :: m in Do(c, s).net && m !in c.net ==> MsgOk(Do(c, s), m)
    ensures |Do(c, s).nodes| == |c.nodes| && c.votes <= Do(c, s).votes
    ensures forall q :: 0 <= q < |c.nodes| && q != s.p ==> Do(c, s).nodes[q] == c.nodes[q]
  {
    hide HandleAppend, HandleAppendResponse, HandleVoteResponse, HandleSnapResponse;
  }

  lemma StepOk(c: Cluster, s: Step)
    requires Inv(c) && Enabled(c, s)
    ensures Inv(Do(c, s))
  {
    hide Do, Inv, Enabled, NodeOk, MsgOk;
    assert s.p < |c.nodes| by {
      EnabledServer(c, s);
    }
    MovedNode(c, s);
    TermAndVote(c, s);
    NewMessages(c, s);
    Moves(c, Do(c, s), s.p);
  }

  lemma EnabledServer(c: Cluster, s: Step)
    requires Enabled(c, s)
    ensures s.p < |c.nodes|
  {
  }

  lemma {:induction false} RunOk(n: nat, steps: seq<Step>)
    requires IsRun(Init(n), steps)
    ensures Inv(Exec(Init(n), steps))
    decreases |steps|
  {
    hide Do, Enabled, Inv;
    if steps == [] {
      InitOk(n);
    } else {
      RunOk(n, steps[..|steps| - 1]);
      StepOk(Exec(Init(n), steps[..|steps| - 1]), Last(steps));
    }
  }

  /**
   * Election Safety: over the whole of any run, with any crashes, a term has at most one leader.
   * p leads at one moment and q at the same or a later one.
   */
  lemma ElectionSafety(n: nat, steps: seq<Step>, more: seq<Step>, p: nat, q: nat)
    requires p < n && q < n && IsRun(Init(n), steps + more)
    requires Exec(Init(n), steps).nodes[p].role == Leader && Exec(Init(n), steps + more).nodes[q].role == Leader
    requires Exec(Init(n), steps).nodes[p].currentTerm == Exec(Init(n), steps + more).nodes[q].currentTerm
    ensures p == q
  {
    RunGrows(Init(n), steps, more);
    RunOk(n, steps);
    RunOk(n, steps + more);
    var c, c' := Exec(Init(n), steps), Exec(Init(n), steps + more);
    var t := c.nodes[p].currentTerm;
    assert NodeOk(c, p) && NodeOk(c', q);
    SubsetSize(Supporters(c, t, p), Supporters(c', t, p));
    OneMajority(c', t, p, q);
  }
}
