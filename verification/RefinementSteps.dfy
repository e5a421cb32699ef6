/** Each step of the cluster, seen as a step of the full-log protocol. */
module RefinementSteps {
  import opened Types
  import opened LogStore
  import opened Rpc
  import opened Median
  import opened Handlers
  import opened Cluster
  import opened Refinement
  import A = Replication
  import S = ReplicationSteps
  import E = Election

  ghost predicate Before(c: Cluster, st: A.State, p: nat) {
    Rel(c, st) && A.Inv(st) && E.Inv(c) && p < |c.nodes|
  }

  /** The protocol has gone from st to st' by these moves, and st' matches the cluster again. */
  ghost predicate After(c': Cluster, st: A.State, moves: seq<S.Move>, st': A.State) {
    A.Inv(st') && Onward(st, st') && Rel(c', st') && S.Path(st, moves, st')
  }

  // ---------- Elections ----------

  lemma ElectStep(c: Cluster, st: A.State, p: nat) returns (st': A.State, moves: seq<S.Move>)
    requires Before(c, st, p)
    ensures After(Do(c, Elect(p)), st, moves, st')
    ensures |moves| <= 1
  {
    hide A.Inv, A.Grows, S.Path, E.Inv, NetRel, A.ServerOk;
    var c' := Do(c, Elect(p));
    var n, n' := c.nodes[p], c'.nodes[p];
    Parts(c, st, p);
    st', moves := S.Timeout(st, p), [S.TimeoutMove(p)];
    S.TimeoutKeeps(st, p);
    S.PathOne(st, S.TimeoutMove(p));
    NodeRelGrows(st, st', n, st.servers[p]);
    assert NodeRel(st', n', st'.servers[p]);
    Restore(c, c', st, st', p);
  }

  lemma AskVoteStep(c: Cluster, st: A.State, p: nat, ask: VoteRequest) returns (st': A.State, moves: seq<S.Move>)
    requires Before(c, st, p) && Enabled(c, OnAskVote(p, ask))
    ensures After(Do(c, OnAskVote(p, ask)), st, moves, st')
    ensures |moves| <= 1
  {
    hide A.Inv, A.Grows, S.Path, E.Inv, NetRel, A.ServerOk, A.LeaderOk, A.CandidateOk, NodeRel;
    var c' := Do(c, OnAskVote(p, ask));
    var n, n' := c.nodes[p], c'.nodes[p];
    Parts(c, st, p);
    ServerTerm(st, n, st.servers[p]);
    GetMsg(c, st, AskVote(ask));
    if HandleVoteRequest(n, ask).1.granted {
      st', moves := S.Grant(st, p, A.Ballot(ask.term, ask.cand)), [S.GrantMove(p, A.Ballot(ask.term, ask.cand))];
      S.GrantKeeps(st, p, A.Ballot(ask.term, ask.cand));
      S.PathOne(st, S.GrantMove(p, A.Ballot(ask.term, ask.cand)));
      NodeRelGrows(st, st', n, st.servers[p]);
      GrantedNode(st, st', n, n', st.servers[p], st'.servers[p]);
      OnwardSame(st, st', p);
      Restore(c, c', st, st', p);
    } else if ask.term > n.currentTerm {
      st', moves := Demotes(c, c', st, p, ask.term);
    } else {
      st', moves := st, [];
      NodeSame(st, n, n', st.servers[p]);
      Stutters(c, c', st, p);
    }
  }

  lemma GetMsg(c: Cluster, st: A.State, m: Msg)
    requires Rel(c, st) && m in c.net
    ensures MsgRel(st, m)
  {
  }

  lemma GrantedNode(st: A.State, st': A.State, n: Node, n': Node, s: A.Server, s': A.Server)
    requires NodeRel(st', n, s) && n'.logs == n.logs && n'.commitIndex == n.commitIndex && n'.snapshot == n.snapshot
    requires n'.pending == n.pending && n'.nextIndex == n.nextIndex && n'.matchIndex == n.matchIndex
    requires s' == s.(term := n'.currentTerm, role := n'.role) && n'.currentTerm >= n.currentTerm
    requires n'.role == Leader ==> n.role == Leader && n'.currentTerm == n.currentTerm
    ensures NodeRel(st', n', s')
  {
    forall m | m in n'.pending
      ensures PendingRel(st', s'.term, m)
    {
      assert PendingRel(st', s.term, m);
    }
    if n'.role == Leader {
      NodeSame(st', n, n', s);
    }
  }

  /** A step after which the server leads only if it already did, in the same term. */
  lemma OnwardSame(st: A.State, st': A.State, p: nat)
    requires A.Grows(st, st') && p < |st.servers|
    requires forall q :: 0 <= q < |st.servers| && q != p ==> st'.servers[q] == st.servers[q]
    requires var s, s' := st.servers[p], st'.servers[p];
             s'.role == Leader ==> s.role == Leader && s'.term == s.term && s.commit <= s'.commit
    ensures Onward(st, st')
  {
  }

  /** A winner's term has had no leader: its majority and an earlier leader's would share a voter. */
  lemma FreshTerm(c: Cluster, st: A.State, p: nat)
    requires Before(c, st, p) && st.servers[p].role == Candidate
    requires Majority(E.Supporters(c, st.servers[p].term, p), |c.nodes|)
    ensures st.servers[p].term !in st.llog
    ensures A.VoteSet(st, st.servers[p].term, p) == E.Supporters(c, st.servers[p].term, p)
  {
    hide A.InvServers, A.InvCarried, A.InvMsgs, A.InvVotes, A.InvEvents, A.InvAcks, NetRel, NodesRel;
    CountServers(c, st);
    var t := st.servers[p].term;
    assert A.CandidateOk(st, p);
    if t in st.lead {
      var q := st.lead[t];
      assert A.VoteSet(st, t, q) == E.Supporters(c, t, q);
      E.OneMajority(c, t, p, q);
    }
  }

  lemma CountServers(c: Cluster, st: A.State)
    requires Rel(c, st)
    ensures |st.servers| == |c.nodes|
  {
  }

  lemma ReplyVoteStep(c: Cluster, st: A.State, p: nat, from: nat, ask: VoteRequest, vote: VoteResponse) returns (st': A.State, moves: seq<S.Move>)
    requires Before(c, st, p) && Enabled(c, OnReplyVote(p, from, ask, vote))
    ensures After(Do(c, OnReplyVote(p, from, ask, vote)), st, moves, st')
    ensures |moves| <= 1
  {
    hide A.Inv, A.Grows, S.Path, E.Inv, NetRel, A.ServerOk, A.LeaderOk, A.CandidateOk, NodeRel, E.Supporters;
    var step := OnReplyVote(p, from, ask, vote);
    var c' := Do(c, step);
    var n, n' := c.nodes[p], c'.nodes[p];
    Parts(c, st, p);
    ServerTerm(st, n, st.servers[p]);
    if n.role == Candidate && n'.role == Leader {
      E.StepOk(c, step);
      st', moves := WonStep(c, st, p, c');
    } else if n'.currentTerm > n.currentTerm {
      st', moves := Demotes(c, c', st, p, n'.currentTerm);
    } else {
      st', moves := st, [];
      NodeSame(st, n, n', st.servers[p]);
      Stutters(c, c', st, p);
    }
  }

  lemma WonStep(c: Cluster, st: A.State, p: nat, c': Cluster) returns (st': A.State, moves: seq<S.Move>)
    requires Before(c, st, p) && E.Inv(c') && c'.votes == c.votes && c'.net == c.net && |c'.nodes| == |c.nodes|
    requires forall q :: 0 <= q < |c.nodes| && q != p ==> c'.nodes[q] == c.nodes[q]
    requires var n, n' := c.nodes[p], c'.nodes[p];
             && n.role == Candidate && n'.role == Leader && n'.currentTerm == n.currentTerm && n'.logs == n.logs
             && n'.commitIndex == n.commitIndex && n'.snapshot == n.snapshot && n'.pending == n.pending
             && (forall q :: 0 <= q < |n'.nextIndex| ==> n'.nextIndex[q] == LastIndex(n) + 1)
             && (forall q :: 0 <= q < |n'.matchIndex| ==> n'.matchIndex[q] == 0)
    ensures After(c', st, moves, st')
    ensures |moves| <= 1
  {
    hide A.Inv, A.Grows, S.Path, E.Inv, NetRel, A.ServerOk, A.LeaderOk, A.CandidateOk, NodeRel, E.Supporters, S.MayWin, A.VoteSet;
    var n, n' := c.nodes[p], c'.nodes[p];
    Parts(c, st, p);
    ServerTerm(st, n, st.servers[p]);
    E.GetNode(c', p);
    assert Majority(E.Supporters(c', n.currentTerm, p), |c.nodes|);
    SameSupporters(c, c', n.currentTerm, p);
    FreshTerm(c, st, p);
    CountServers(c, st);
    WinNow(st, p);
    st', moves := S.Win(st, p), [S.WinMove(p)];
    S.WinKeeps(st, p);
    S.PathOne(st, S.WinMove(p));
    NodeRelGrows(st, st', n, st.servers[p]);
    WonNode(st', n, n', st.servers[p], st'.servers[p]);
    LedIsLogged(st);
    OnwardWin(st, st', p);
    Restore(c, c', st, st', p);
  }

  lemma WinNow(st: A.State, p: nat)
    requires p < |st.servers| && st.servers[p].role == Candidate && st.servers[p].term !in st.llog
    requires Majority(A.VoteSet(st, st.servers[p].term, p), |st.servers|)
    ensures S.MayWin(st, p)
  {
  }

  lemma SameSupporters(c: Cluster, c': Cluster, t: nat, p: nat)
    requires c'.votes == c.votes && |c'.nodes| == |c.nodes|
    ensures E.Supporters(c', t, p) == E.Supporters(c, t, p)
  {
  }

  lemma LedIsLogged(st: A.State)
    requires A.Inv(st)
    ensures st.lead.Keys <= st.llog.Keys
  {
  }

  lemma OnwardWin(st: A.State, st': A.State, p: nat)
    requires A.Grows(st, st') && p < |st.servers| && st.lead.Keys <= st.llog.Keys
    requires forall q :: 0 <= q < |st.servers| && q != p ==> st'.servers[q] == st.servers[q]
    requires st'.servers[p].term !in st.llog
    ensures Onward(st, st')
  {
  }

  lemma WonNode(st': A.State, n: Node, n': Node, s: A.Server, s': A.Server)
    requires NodeRel(st', n, s) && |s.log| > 0 && LastIndex(n) == |s.log| - 1
    requires n'.logs == n.logs && n'.commitIndex == n.commitIndex && n'.snapshot == n.snapshot && n'.pending == n.pending
    requires n'.currentTerm == n.currentTerm && n'.role == Leader && s' == s.(role := Leader)
    requires forall q :: 0 <= q < |n'.nextIndex| ==> n'.nextIndex[q] == LastIndex(n) + 1
    requires forall q :: 0 <= q < |n'.matchIndex| ==> n'.matchIndex[q] == 0
    ensures NodeRel(st', n', s')
  {
    forall q | 0 <= q < |n'.nextIndex| && q < |n'.matchIndex|
      ensures PeerRel(st', n', s', q)
    {
    }
  }

  // ---------- The leader's side ----------

  lemma ProposeStep(c: Cluster, st: A.State, p: nat, cmd: Command) returns (st': A.State, moves: seq<S.Move>)
    requires Before(c, st, p)
    ensures After(Do(c, Propose(p, cmd)), st, moves, st')
    ensures |moves| <= 1
  {
    hide A.Inv, A.Grows, S.Path, E.Inv, NetRel, A.ServerOk, A.CandidateOk, NodeRel, Compact;
    var c' := Do(c, Propose(p, cmd));
    var n, n' := c.nodes[p], c'.nodes[p];
    Parts(c, st, p);
    ServerTerm(st, n, st.servers[p]);
    if n.role == Leader {
      st', moves := S.Client(st, p, cmd), [S.ClientMove(p, cmd)];
      S.ClientKeeps(st, p, cmd);
      S.PathOne(st, S.ClientMove(p, cmd));
      NodeRelGrows(st, st', n, st.servers[p]);
      S.Member(st', p);
      ProposedNode(st', n, n', st.servers[p], st'.servers[p], p, cmd);
      OnwardSame(st, st', p);
      Restore(c, c', st, st', p);
    } else {
      st', moves := st, [];
      Stutters(c, c', st, p);
    }
  }

  lemma ProposedNode(st': A.State, n: Node, n': Node, s: A.Server, s': A.Server, p: nat, cmd: Command)
    requires NodeRel(st', n, s) && n.role == Leader && p < |st'.servers| && st'.servers[p] == s' && A.LeaderOk(st', p)
    requires |s.log| > 0 && LastIndex(n) == |s.log| - 1
    requires s'.log == s.log + [Entry(|s.log|, s.term, cmd)] && s'.good == |s'.log|
    requires s' == s.(log := s'.log, good := s'.good)
    requires n.me == p && p < |n.nextIndex| && p < |n.matchIndex| && n' == Start(n, cmd)
    ensures NodeRel(st', n', s')
  {
    var first := FirstIndex(n.logs);
    CompactAppend(s.log, first, Entry(|s.log|, s.term, cmd));
    assert s'.log[1..first + 1] == s.log[1..first + 1];
    forall q | 0 <= q < |n'.nextIndex| && q < |n'.matchIndex|
      ensures PeerRel(st', n', s', q)
    {
      assert PeerRel(st', n, s, q);
    }
  }

  lemma ReplicateStep(c: Cluster, st: A.State, p: nat, peer: nat) returns (st': A.State, moves: seq<S.Move>)
    requires Before(c, st, p) && Enabled(c, Replicate(p, peer))
    ensures After(Do(c, Replicate(p, peer)), st, moves, st')
    ensures |moves| <= 1
  {
    hide A.Inv, A.Grows, S.Path, E.Inv, NetRel, A.ServerOk, A.CandidateOk, NodeRel, Compact, GenAppend, GenSnap;
    var c' := Do(c, Replicate(p, peer));
    var n := c.nodes[p];
    Parts(c, st, p);
    ServerTerm(st, n, st.servers[p]);
    match ReplicateOneRound(n, peer) {
      case Silent =>
        st', moves := st, [];
        Stutters(c, c', st, p);
      case Entries(a) =>
        st', moves := S.SendAppend(st, p), [S.SendAppendMove(p)];
        S.SendAppendKeeps(st, p);
        S.PathOne(st, S.SendAppendMove(p));
        NodeRelGrows(st, st', n, st.servers[p]);
        SentAppend(st, n, st.servers[p], peer);
        var s := st.servers[p];
        assert A.AppendMsg(s.term, s.log, s.commit, s.event) in st'.appends;
        OnwardSame(st, st', p);
        Restore(c, c', st, st', p);
      case Snap(a) =>
        var first := FirstIndex(n.logs);
        SnapIndex(st, n, st.servers[p]);
        st', moves := S.SendSnap(st, p, first), [S.SendSnapMove(p, first)];
        S.SendSnapKeeps(st, p, first);
        S.PathOne(st, S.SendSnapMove(p, first));
        NodeRelGrows(st, st', n, st.servers[p]);
        SentSnap(st', n, p);
        OnwardSame(st, st', p);
        Restore(c, c', st, st', p);
    }
  }

  lemma SnapIndex(st: A.State, n: Node, s: A.Server)
    requires NodeRel(st, n, s)
    ensures FirstIndex(n.logs) <= s.commit && FirstIndex(n.logs) < |s.log|
  {
  }

  lemma SentAppend(st: A.State, n: Node, s: A.Server, peer: nat)
    requires NodeRel(st, n, s) && NodeFactsHold(st, n, s) && n.role == Leader && peer < |n.nextIndex| && peer < |n.matchIndex|
    requires n.nextIndex[peer] - 1 >= FirstIndex(n.logs)
    ensures AppendIs(A.AppendMsg(s.term, s.log, s.commit, s.event), GenAppend(n, n.nextIndex[peer] - 1))
  {
    hide Contiguous, Numbered, Compact;
    assert PeerRel(st, n, s, peer) by { hide PeerRel; }
    var first, next := FirstIndex(n.logs), n.nextIndex[peer];
    assert TermAt(n.logs, next - 1) == s.log[next - 1].term by { hide NodeRel, TermAt; }
    CompactSuffix(s.log, first, next);
  }

  lemma SentSnap(st': A.State, n: Node, p: nat)
    requires p < |st'.servers| && NodeRel(st', n, st'.servers[p]) && A.LeaderOk(st', p) && n.role == Leader
    requires var s, k := st'.servers[p], FirstIndex(n.logs);
             A.SnapMsg(s.term, s.log[..k + 1], s.event) in st'.snaps
    ensures SnapRel(st', GenSnap(n)) && st'.lead[GenSnap(n).term] == p
  {
    var s, k := st'.servers[p], FirstIndex(n.logs);
    var m := A.SnapMsg(s.term, s.log[..k + 1], s.event);
    assert m.log[1..] == s.log[1..k + 1];
    assert SnapIs(m, n.logs[0].term, k, n.snapshot);
  }

  // ---------- A follower takes an append request ----------

  /** The consistency check never matches inside a kept tail, so a match decides the whole prefix. */
  lemma MatchDecides(st: A.State, s: A.Server, m: A.AppendMsg)
    requires A.InvLogs(st) && A.InvCarried(st) && A.InvEvents(st) && A.ServerOk(st, s) && A.AppendOk(st, m)
    requires s.term <= m.term
    ensures TermsDecide(s.log, m.log)
  {
    hide A.InvCarried, A.InvEvents;
    S.CommitInLeader(st, s, m.term);
    forall q | 0 <= q < |s.log| && q < |m.log| && s.log[q].term == m.log[q].term
      ensures Agree(s.log, m.log, q + 1)
    {
      assert A.Ref(st, st.llog[m.term], q);
      assert q < s.good ==> A.Ref(st, s.log, q);
      MatchNotTail(st, s, m, q);
    }
  }

  lemma MatchNotTail(st: A.State, s: A.Server, m: A.AppendMsg, q: nat)
    requires A.InvLogs(st) && A.ServerOk(st, s) && A.AppendOk(st, m) && Agree(s.log, st.llog[m.term], s.commit + 1)
    requires q < |s.log| && q < |m.log| && s.log[q].term == m.log[q].term
    ensures q < s.good
  {
    hide A.InvLogs, A.WellFormed;
    if s.good < |s.log| && q >= s.good {
      MatchedIsSame(st, s.log, s.good, m, q);
    }
  }

  lemma MatchedIsSame(st: A.State, log: seq<Entry>, good: nat, m: A.AppendMsg, q: nat)
    requires A.InvLogs(st) && A.AppendOk(st, m) && Agree(log, st.llog[m.term], good)
    requires good <= q < |log| && q < |m.log| && log[q].term == m.log[q].term
    ensures !A.Junk(st, log, good, q)
  {
    assert m.log[q] == st.llog[m.term][q];
    assert A.Ref(st, st.llog[m.term], q);
  }

  lemma NumberedLog(st: A.State, m: A.AppendMsg)
    requires A.InvLogs(st) && A.AppendOk(st, m)
    ensures Numbered(m.log)
  {
    forall p | 0 <= p < |m.log|
      ensures m.log[p].index == p
    {
      assert m.log[p] == st.llog[m.term][p];
    }
  }

  /** The spliced log is the compacted form of the log the protocol ends up with. */
  lemma AcceptedLog(n: Node, s: A.Server, m: A.AppendMsg, a: AppendRequest)
    requires FirstIndex(n.logs) < |s.log| && n.logs == Compact(s.log, FirstIndex(n.logs))
    requires |n.logs| == |s.log| - FirstIndex(n.logs)
    requires forall i :: FirstIndex(n.logs) <= i < |s.log| ==> TermAt(n.logs, i) == s.log[i].term
    requires AppendIs(m, a) && Numbered(s.log) && Numbered(m.log) && TermsDecide(s.log, m.log)
    requires a.prevIndex >= FirstIndex(n.logs) && MatchLog(n.logs, a.prevTerm, a.prevIndex)
    ensures var first := FirstIndex(n.logs);
            var log := if m.log <= s.log then s.log else m.log;
            && Splice(n.logs, a.entries) == Compact(log, first)
            && FirstIndex(Splice(n.logs, a.entries)) == first
            && first < |log| && LastLog(Splice(n.logs, a.entries)).index == |log| - 1 && |m.log| <= |log|
            && log[1..first + 1] == s.log[1..first + 1]
  {
    hide Splice, Compact, TermsDecide, MatchLog, TermAt;
    var log := if m.log <= s.log then s.log else m.log;
    var first, prev := FirstIndex(n.logs), a.prevIndex;
    CheckPassed(n, s, m, prev);
    SpliceCompact(s.log, first, m.log, prev + 1);
    CompactLookup(log, first);
  }

  /** What an accepted request does to the server. */
  lemma AcceptFields(n: Node, a: AppendRequest)
    requires a.term >= n.currentTerm && a.prevIndex >= FirstIndex(n.logs) && MatchLog(n.logs, a.prevTerm, a.prevIndex)
    ensures var n' := HandleAppend(n, a).0;
            && n'.currentTerm == a.term && n'.role == Follower && n'.logs == Splice(n.logs, a.entries)
            && n'.pending == n.pending && n'.snapshot == n.snapshot
            && n'.commitIndex == Max(n.commitIndex, Min(a.leaderCommit, LastLog(Splice(n.logs, a.entries)).index))
  {
    hide Splice, MatchLog, ScanBack;
  }

  lemma AcceptedServer(st: A.State, p: nat, m: A.AppendMsg)
    requires p < |st.servers| && m.commit < |m.log|
    requires m.log <= st.servers[p].log ==> |m.log| <= st.servers[p].good
    requires st.servers[p].good < |st.servers[p].log| ==> st.servers[p].good == st.servers[p].commit + 1
    ensures |S.Accept(st, p, m).servers| == |st.servers|
    ensures var s, s' := st.servers[p], S.Accept(st, p, m).servers[p];
            && s'.log == (if m.log <= s.log then s.log else m.log)
            && s'.term == m.term && s'.role == Follower && s'.commit == Max(s.commit, m.commit)
            && (s'.good < |s'.log| ==> s.good < |s.log| && s'.commit == s.commit)
  {
  }

  lemma AcceptedNode(st: A.State, st': A.State, n: Node, p: nat, m: A.AppendMsg, a: AppendRequest)
    requires p < |st.servers| && NodeRel(st', n, st.servers[p]) && NodeFactsHold(st, n, st.servers[p])
    requires AppendIs(m, a) && a.term >= n.currentTerm && m.commit < |m.log| && Numbered(m.log)
    requires TermsDecide(st.servers[p].log, m.log)
    requires a.prevIndex >= FirstIndex(n.logs) && MatchLog(n.logs, a.prevTerm, a.prevIndex)
    requires st' == S.Accept(st, p, m)
    requires m.log <= st.servers[p].log ==> |m.log| <= st.servers[p].good
    requires st.servers[p].good < |st.servers[p].log| ==> st.servers[p].good == st.servers[p].commit + 1
    ensures NodeRel(st', HandleAppend(n, a).0, st'.servers[p])
  {
    hide Splice, Compact, TermsDecide, MatchLog, HandleAppend, PendingRel, PeerRel, Commands, S.Accept;
    AcceptedServer(st, p, m);
    var s, s' := st.servers[p], st'.servers[p];
    AcceptedLog(n, s, m, a);
    AcceptFields(n, a);
    var n' := HandleAppend(n, a).0;
    assert n'.commitIndex == s'.commit;
    forall x | x in n'.pending
      ensures PendingRel(st', s'.term, x)
    {
      PendingLater(st', s.term, s'.term, x);
    }
  }

  lemma PendingLater(st: A.State, t: nat, u: nat, x: SnapshotMsg)
    requires PendingRel(st, t, x) && t <= u
    ensures PendingRel(st, u, x)
  {
  }

  lemma CheckPassed(n: Node, s: A.Server, m: A.AppendMsg, prev: int)
    requires 0 <= prev < |m.log| && MatchLog(n.logs, m.log[prev].term, prev) && TermsDecide(s.log, m.log)
    requires |n.logs| == |s.log| - FirstIndex(n.logs)
    requires forall i :: FirstIndex(n.logs) <= i < |s.log| ==> TermAt(n.logs, i) == s.log[i].term
    ensures Agree(s.log, m.log, prev + 1)
  {
    assert s.log[prev].term == m.log[prev].term;
  }

  /** A success reply vouches for every entry of the leader's term in the request. */
  lemma AcceptedReply(st: A.State, p: nat, m: A.AppendMsg)
    requires p < |st.servers| && A.AppendOk(st, m) && A.ServerOk(st, st.servers[p]) && m.term >= st.servers[p].term
    requires A.InvLogs(st)
    requires A.Grows(st, S.Accept(st, p, m))
    ensures Acked(S.Accept(st, p, m), p, m.term, |m.log| - 1)
  {
    hide A.InvLogs, A.WellFormed;
    var st', s := S.Accept(st, p, m), st.servers[p];
    forall i: nat | i <= |m.log| - 1 && A.OwnEntry(st', m.term, i)
      ensures A.Ack(p, m.term, i) in st'.acks || exists e :: e in st'.commits && e.term == m.term && e.index >= i
    {
      assert m.log[i].term == m.term;
      if m.log <= s.log && s.good < |s.log| {
        S.AgreeIsGood(st, s, m.term, |m.log|);
        TermsBounded(st, s.event, i);
        assert s.event.term == m.term;
      }
    }
  }

  lemma TermsBounded(st: A.State, e: A.Event, i: nat)
    requires A.InvLogs(st) && A.HasEvent(st, e) && i <= e.index
    ensures st.llog[e.term][i].term <= e.term
  {
  }

  /** A rejection points at an index below the one that was probed, and never below zero. */
  lemma ConflictInRange(st: A.State, n: Node, s: A.Server, prev: nat, prevTerm: nat)
    requires A.InvLogs(st) && A.ServerOk(st, s) && NodeFactsHold(st, n, s) && NodeRel(st, n, s)
    requires prev >= FirstIndex(n.logs) && !MatchLog(n.logs, prevTerm, prev) && (prev == 0 ==> prevTerm == 0)
    ensures 0 <= Conflict(n, prev).conflictIndex <= prev
  {
    var first := FirstIndex(n.logs);
    ZeroTerm(st, s);
    if prev < |s.log| {
      var term := TermAt(n.logs, prev);
      assert term == s.log[prev].term;
      var r := ScanBack(n.logs, prev - 1, term);
      if first == 0 && prev > 0 {
        assert TermAt(n.logs, 0) == 0 && term != 0;
      }
    }
  }

  /** Only the placeholder has term 0. */
  lemma ZeroTerm(st: A.State, s: A.Server)
    requires A.InvLogs(st) && A.ServerOk(st, s)
    ensures s.log[0] == Placeholder
    ensures forall p :: 0 < p < |s.log| ==> s.log[p].term != 0
  {
    assert A.Ref(st, s.log, 0);
    forall p | 0 < p < |s.log|
      ensures s.log[p].term != 0
    {
      assert p < s.good ==> A.Ref(st, s.log, p);
      assert p >= s.good ==> A.Junk(st, s.log, s.good, p);
    }
  }

  lemma AskAppendStep(c: Cluster, st: A.State, p: nat, a: AppendRequest) returns (st': A.State, moves: seq<S.Move>)
    requires Before(c, st, p) && Enabled(c, OnAskAppend(p, a))
    ensures After(Do(c, OnAskAppend(p, a)), st, moves, st')
    ensures |moves| <= 1
  {
    hide A.Inv, A.Grows, S.Path, E.Inv, NetRel, A.ServerOk, A.LeaderOk, A.CandidateOk, NodeRel, Splice, MatchLog,
         Conflict, Acked, A.AppendOk, AppendIs;
    var c' := Do(c, OnAskAppend(p, a));
    var n, n' := c.nodes[p], c'.nodes[p];
    var s := st.servers[p];
    Parts(c, st, p);
    ServerTerm(st, n, s);
    GetMsg(c, st, AskAppend(p, a));
    var m :| m in st.appends && AppendIs(m, a);
    AppendFacts(st, s, m, a);
    if a.term < n.currentTerm {
      st', moves := st, [];
      NodeSame(st, n, n', s);
      Stutters(c, c', st, p);
    } else if a.prevIndex < FirstIndex(n.logs) || !MatchLog(n.logs, a.prevTerm, a.prevIndex) {
      RejectInRange(st, n, s, m, a);
      st', moves := Demotes(c, c', st, p, a.term);
    } else {
      st', moves := AcceptedStep(c, st, p, a, m);
    }
  }

  lemma AcceptedStep(c: Cluster, st: A.State, p: nat, a: AppendRequest, m: A.AppendMsg) returns (st': A.State, moves: seq<S.Move>)
    requires Before(c, st, p) && m in st.appends && AppendIs(m, a) && a.term >= c.nodes[p].currentTerm
    requires a.prevIndex >= FirstIndex(c.nodes[p].logs) && MatchLog(c.nodes[p].logs, a.prevTerm, a.prevIndex)
    ensures After(Do(c, OnAskAppend(p, a)), st, moves, st')
    ensures |moves| <= 1
  {
    hide A.Inv, A.Grows, S.Path, E.Inv, NetRel, A.ServerOk, A.LeaderOk, A.CandidateOk, NodeRel, NodeFactsHold,
         HandleAppend, Splice, MatchLog,
         Acked, A.AppendOk, AppendIs, S.Accept;
    var c' := Do(c, OnAskAppend(p, a));
    var n, n' := c.nodes[p], c'.nodes[p];
    var s := st.servers[p];
    Parts(c, st, p);
    ServerTerm(st, n, s);
    AppendFacts(st, s, m, a);
    AcceptFields(n, a);
    st', moves := S.Accept(st, p, m), [S.AcceptMove(p, m)];
    S.AcceptKeeps(st, p, m);
    S.PathOne(st, S.AcceptMove(p, m));
    NodeRelGrows(st, st', n, s);
    AcceptFacts(st, n, s, p, m);
    AcceptedNode(st, st', n, p, m, a);
    AcceptedReply(st, p, m);
    AcceptMoves(st, p, m);
    OnwardSame(st, st', p);
    AppendLength(m, a);
    SuccessReply(n, a);
    Restore(c, c', st, st', p);
  }

  lemma SuccessReply(n: Node, a: AppendRequest)
    requires a.term >= n.currentTerm && a.prevIndex >= FirstIndex(n.logs) && MatchLog(n.logs, a.prevTerm, a.prevIndex)
    ensures HandleAppend(n, a).1 == AppendResponse(a.term, true, 0, 0)
  {
    hide Splice, MatchLog, ScanBack;
  }

  lemma AcceptMoves(st: A.State, p: nat, m: A.AppendMsg)
    requires p < |st.servers|
    ensures var st' := S.Accept(st, p, m);
            && |st'.servers| == |st.servers| && st'.servers[p].role == Follower && st'.votes == st.votes && st'.appends == st.appends
            && forall q :: 0 <= q < |st.servers| && q != p ==> st'.servers[q] == st.servers[q]
  {
  }

  lemma AppendLength(m: A.AppendMsg, a: AppendRequest)
    requires AppendIs(m, a)
    ensures a.prevIndex + |a.entries| == |m.log| - 1 && a.term == m.term && a.prevIndex >= 0
  {
  }

  lemma AppendFacts(st: A.State, s: A.Server, m: A.AppendMsg, a: AppendRequest)
    requires A.Inv(st) && m in st.appends && AppendIs(m, a)
    ensures A.AppendOk(st, m) && m.commit < |m.log| && Numbered(m.log) && m.term == a.term && A.InvLogs(st)
    ensures a.prevIndex >= 0 && (a.prevIndex == 0 ==> a.prevTerm == 0)
  {
    S.GetAppend(st, m);
    NumberedLog(st, m);
    assert m.log[0] == st.llog[m.term][0];
  }

  lemma AcceptFacts(st: A.State, n: Node, s: A.Server, p: nat, m: A.AppendMsg)
    requires A.Inv(st) && A.AppendOk(st, m) && A.ServerOk(st, s) && s.term <= m.term
    ensures TermsDecide(s.log, m.log)
    ensures m.log <= s.log ==> |m.log| <= s.good
    ensures s.good < |s.log| ==> s.good == s.commit + 1
  {
    hide A.InvServers, A.InvCarried, A.InvMsgs, A.InvVotes, A.InvEvents, A.InvAcks, A.InvLeaders, A.InvCandidates;
    MatchDecides(st, s, m);
    if m.log <= s.log {
      S.AgreeIsGood(st, s, m.term, |m.log|);
    }
  }

  lemma RejectInRange(st: A.State, n: Node, s: A.Server, m: A.AppendMsg, a: AppendRequest)
    requires A.InvLogs(st) && A.ServerOk(st, s) && NodeFactsHold(st, n, s) && NodeRel(st, n, s)
    requires a.prevIndex >= 0 && (a.prevIndex == 0 ==> a.prevTerm == 0)
    requires a.term >= n.currentTerm
    requires a.prevIndex < FirstIndex(n.logs) || !MatchLog(n.logs, a.prevTerm, a.prevIndex)
    ensures var (n', r) := HandleAppend(n, a);
            && !r.success && 0 <= r.conflictIndex <= a.prevIndex
            && n'.currentTerm == a.term && n'.role == Follower && n'.logs == n.logs && n'.commitIndex == n.commitIndex
            && n'.snapshot == n.snapshot && n'.pending == n.pending
  {
    hide A.InvLogs, A.ServerOk, NodeRel, ScanBack;
    if a.prevIndex >= FirstIndex(n.logs) {
      ConflictInRange(st, n, s, a.prevIndex, a.prevTerm);
    }
  }

  // ---------- The leader takes an append reply ----------

  lemma ReplyAppendStep(c: Cluster, st: A.State, p: nat, from: nat, a: AppendRequest, r: AppendResponse) returns (st': A.State, moves: seq<S.Move>)
    requires Before(c, st, p) && Enabled(c, OnReplyAppend(p, from, a, r))
    ensures After(Do(c, OnReplyAppend(p, from, a, r)), st, moves, st')
    ensures |moves| <= 1
  {
    hide A.Inv, A.Grows, S.Path, E.Inv, NetRel, A.ServerOk, A.LeaderOk, A.CandidateOk, NodeRel, NodeFactsHold, MatchLog,
         MedianOf, LeaderCommit,
         NextAfter, Acked, AppendIs;
    var c' := Do(c, OnReplyAppend(p, from, a, r));
    var n, n' := c.nodes[p], c'.nodes[p];
    var s := st.servers[p];
    Parts(c, st, p);
    ServerTerm(st, n, s);
    GetMsg(c, st, ReplyAppend(from, a, r));
    var m :| m in st.appends && AppendIs(m, a);
    AppendLength(m, a);
    if n.role != Leader || n.currentTerm != a.term || from >= |n.matchIndex| {
      st', moves := st, [];
      Stutters(c, c', st, p);
    } else if r.success {
      st', moves := SucceededStep(c, st, p, from, a, r, m);
    } else if r.term > n.currentTerm {
      st', moves := Demotes(c, c', st, p, r.term);
    } else {
      st', moves := st, [];
      RequestInLog(st, p, m);
      if r.term == n.currentTerm {
        ProbedNode(st, n, n', s, from, a, r);
      }
      Stutters(c, c', st, p);
    }
  }

  /** A success reply: the indices move, and perhaps the commit index. */
  lemma SucceededStep(c: Cluster, st: A.State, p: nat, from: nat, a: AppendRequest, r: AppendResponse, m: A.AppendMsg)
    returns (st': A.State, moves: seq<S.Move>)
    requires Before(c, st, p) && r.success && m in st.appends && m.term == a.term && a.prevIndex + |a.entries| == |m.log| - 1
    requires var n := c.nodes[p];
             n.role == Leader && n.currentTerm == a.term && from < |n.matchIndex| && Acked(st, from, n.currentTerm, |m.log| - 1)
    ensures After(Do(c, OnReplyAppend(p, from, a, r)), st, moves, st')
    ensures |moves| <= 1
  {
    hide A.Inv, A.Grows, S.Path, E.Inv, NetRel, A.ServerOk, A.LeaderOk, A.CandidateOk, NodeRel, NodeFactsHold, MatchLog, MedianOf,
         NextAfter, Acked, AppendIs, S.Commit, S.MayCommit;
    var c' := Do(c, OnReplyAppend(p, from, a, r));
    var n, n' := c.nodes[p], c'.nodes[p];
    var s := st.servers[p];
    Parts(c, st, p);
    ServerTerm(st, n, s);
    RequestInLog(st, p, m);
    var n1 := n.(matchIndex := n.matchIndex[from := |m.log| - 1], nextIndex := n.nextIndex[from := |m.log|]);
    MatchedNode(st, n, n1, p, from, |m.log|);
    if n'.commitIndex == n1.commitIndex {
      st', moves := st, [];
      Stutters(c, c', st, p);
    } else {
      SameFacts(st, n, n1, s);
      ForgotPart(st);
      MedianAcked(st, n1, p);
      var i := MedianOf(n1.matchIndex);
      MayNow(st, p, i);
      st', moves := S.Commit(st, p, i), [S.CommitMove(p, i)];
      S.CommitKeeps(st, p, i);
      S.PathOne(st, S.CommitMove(p, i));
      CommitMoves(st, p, i);
      NodeRelGrows(st, st', n1, s);
      CommittedNode(st', n1, n', s, st'.servers[p], i);
      OnwardSame(st, st', p);
      Restore(c, c', st, st', p);
    }
  }

  lemma SameFacts(st: A.State, n: Node, n1: Node, s: A.Server)
    requires NodeFactsHold(st, n, s) && n1.logs == n.logs
    ensures NodeFactsHold(st, n1, s)
  {
  }

  lemma MayNow(st: A.State, p: nat, i: nat)
    requires p < |st.servers| && st.servers[p].role == Leader
    requires var s := st.servers[p];
             s.commit < i < |s.log| && s.log[i].term == s.term && Majority(A.AckSet(st, s.term, i), |st.servers|)
    ensures S.MayCommit(st, p, i)
  {
  }

  lemma CommitMoves(st: A.State, p: nat, i: nat)
    requires p < |st.servers|
    ensures var st', s := S.Commit(st, p, i), st.servers[p];
            && |st'.servers| == |st.servers| && st'.servers[p] == s.(commit := i, event := A.Event(s.term, i))
            && st'.votes == st.votes
            && forall q :: 0 <= q < |st.servers| && q != p ==> st'.servers[q] == st.servers[q]
  {
  }

  /** The request was a prefix of what the leader's log is now. */
  lemma RequestInLog(st: A.State, p: nat, m: A.AppendMsg)
    requires A.Inv(st) && p < |st.servers| && A.LeaderOk(st, p) && st.servers[p].role == Leader
    requires m in st.appends && m.term == st.servers[p].term
    ensures 0 < |m.log| <= |st.servers[p].log| && st.servers[p].good == |st.servers[p].log|
  {
    S.GetAppend(st, m);
  }

  lemma MatchedNode(st: A.State, n: Node, n1: Node, p: nat, from: nat, k: nat)
    requires p < |st.servers| && NodeRel(st, n, st.servers[p]) && A.LeaderOk(st, p) && n.role == Leader
    requires 0 < k <= |st.servers[p].log| && Acked(st, from, n.currentTerm, k - 1)
    requires from < |n.matchIndex| && from < |n.nextIndex|
    requires n1 == n.(matchIndex := n.matchIndex[from := k - 1], nextIndex := n.nextIndex[from := k])
    ensures NodeRel(st, n1, st.servers[p])
  {
    var s := st.servers[p];
    forall q | 0 <= q < |n1.nextIndex| && q < |n1.matchIndex|
      ensures PeerRel(st, n1, s, q)
    {
      assert PeerRel(st, n, s, q);
      if q == from {
        forall i | s.commit < i <= k - 1 && s.log[i].term == s.term
          ensures A.Ack(q, s.term, i) in st.acks
        {
          assert A.OwnEntry(st, s.term, i);
        }
      }
    }
  }

  lemma ForgotPart(st: A.State)
    requires A.Inv(st)
    ensures A.InvForgot(st)
  {
  }

  /** The index the median picks is backed by a majority of genuine acknowledgements. */
  lemma MedianAcked(st: A.State, n: Node, p: nat)
    requires p < |st.servers| && NodeRel(st, n, st.servers[p]) && NodeFactsHold(st, n, st.servers[p]) && n.role == Leader
    requires |n.matchIndex| == |n.nextIndex| == |st.servers| && A.LeaderOk(st, p) && A.InvForgot(st)
    requires var i := MedianOf(n.matchIndex); i > n.commitIndex && MatchLog(n.logs, n.currentTerm, i)
    ensures var i, s := MedianOf(n.matchIndex), st.servers[p];
            && s.commit < i < |s.log| && s.log[i].term == s.term
            && Majority(A.AckSet(st, s.term, i), |st.servers|)
  {
    var i, s := MedianOf(n.matchIndex), st.servers[p];
    MedianMajority(n.matchIndex);
    assert s.log[i].term == s.term;
    forall q | q in Reached(n.matchIndex, i)
      ensures q in A.AckSet(st, s.term, i)
    {
      assert PeerRel(st, n, s, q);
    }
    SubsetSize(Reached(n.matchIndex, i), A.AckSet(st, s.term, i));
  }

  lemma CommittedNode(st': A.State, n1: Node, n': Node, s: A.Server, s': A.Server, i: nat)
    requires NodeRel(st', n1, s) && i >= s.commit && s.good == |s.log|
    requires n' == n1.(commitIndex := i) && s' == s.(commit := i, event := s'.event)
    ensures NodeRel(st', n', s')
  {
    forall q | 0 <= q < |n'.nextIndex| && q < |n'.matchIndex| && n'.role == Leader
      ensures PeerRel(st', n', s', q)
    {
      assert PeerRel(st', n1, s, q);
    }
  }

  lemma ProbedNode(st: A.State, n: Node, n': Node, s: A.Server, from: nat, a: AppendRequest, r: AppendResponse)
    requires NodeRel(st, n, s) && from < |n.nextIndex|
    requires 0 <= r.conflictIndex <= a.prevIndex < |s.log|
    requires n' == n.(nextIndex := n.nextIndex[from := NextAfter(n.logs, a, r)])
    ensures NodeRel(st, n', s)
  {
    forall q | 0 <= q < |n'.nextIndex| && q < |n'.matchIndex| && n'.role == Leader
      ensures PeerRel(st, n', s, q)
    {
      assert PeerRel(st, n, s, q);
    }
  }

  // ---------- Snapshots ----------

  lemma AskSnapStep(c: Cluster, st: A.State, p: nat, a: SnapRequest) returns (st': A.State, moves: seq<S.Move>)
    requires Before(c, st, p) && Enabled(c, OnAskSnap(p, a))
    ensures After(Do(c, OnAskSnap(p, a)), st, moves, st')
    ensures |moves| <= 1
  {
    hide A.Inv, A.Grows, S.Path, E.Inv, NetRel, A.ServerOk, A.LeaderOk, A.CandidateOk, NodeRel, LeaderCovers;
    var c' := Do(c, OnAskSnap(p, a));
    var n, n' := c.nodes[p], c'.nodes[p];
    var s := st.servers[p];
    Parts(c, st, p);
    ServerTerm(st, n, s);
    GetMsg(c, st, AskSnap(p, a));
    if a.term < n.currentTerm {
      st', moves := st, [];
      Stutters(c, c', st, p);
    } else {
      assert PendingRel(st, a.term, SnapshotMsg(a.lastTerm, a.lastIndex, a.data));
      st', moves := Demotes(c, c', st, p, a.term);
    }
  }

  lemma ReplySnapStep(c: Cluster, st: A.State, p: nat, from: nat, a: SnapRequest, r: SnapResponse) returns (st': A.State, moves: seq<S.Move>)
    requires Before(c, st, p) && Enabled(c, OnReplySnap(p, from, a, r))
    ensures After(Do(c, OnReplySnap(p, from, a, r)), st, moves, st')
    ensures |moves| <= 1
  {
    hide A.Inv, A.Grows, S.Path, E.Inv, NetRel, A.ServerOk, A.CandidateOk, NodeRel;
    var c' := Do(c, OnReplySnap(p, from, a, r));
    var n, n' := c.nodes[p], c'.nodes[p];
    var s := st.servers[p];
    Parts(c, st, p);
    ServerTerm(st, n, s);
    GetMsg(c, st, ReplySnap(from, a, r));
    if n.role == Leader && n.currentTerm == a.term && from < |n.matchIndex| && r.term > n.currentTerm {
      st', moves := Demotes(c, c', st, p, r.term);
    } else {
      st', moves := st, [];
      if n.role == Leader && n.currentTerm == a.term && from < |n.matchIndex| {
        assert a.lastIndex <= s.commit;
        CoveredNode(st, n, n', s, from, a.lastIndex);
      }
      Stutters(c, c', st, p);
    }
  }

  /** The optimistic match index of a snapshot reply is within what is already committed. */
  lemma CoveredNode(st: A.State, n: Node, n': Node, s: A.Server, from: nat, k: nat)
    requires NodeRel(st, n, s) && A.ServerOk(st, s) && k <= s.commit && from < |n.nextIndex| && from < |n.matchIndex|
    requires n' == n.(matchIndex := n.matchIndex[from := k], nextIndex := n.nextIndex[from := k + 1])
    ensures NodeRel(st, n', s)
  {
    forall q | 0 <= q < |n'.nextIndex| && q < |n'.matchIndex| && n'.role == Leader
      ensures PeerRel(st, n', s, q)
    {
      assert PeerRel(st, n, s, q);
    }
  }

  lemma InstallStep(c: Cluster, st: A.State, p: nat, msg: SnapshotMsg) returns (st': A.State, moves: seq<S.Move>)
    requires Before(c, st, p) && Enabled(c, Install(p, msg))
    ensures After(Do(c, Install(p, msg)), st, moves, st')
    ensures |moves| <= 1
    ensures msg.index > c.nodes[p].commitIndex ==>
              |moves| == 1 && moves[0].InstallMove? && moves[0].v == p && SnapIs(moves[0].snap, msg.term, msg.index, msg.data)
  {
    hide A.Inv, A.Grows, S.Path, E.Inv, NetRel, A.ServerOk, A.CandidateOk, A.LeaderOk, NodeRel, SnapIs, InstalledLog, S.Install;
    var c' := Do(c, Install(p, msg));
    var n, n' := c.nodes[p], c'.nodes[p];
    var s := st.servers[p];
    Parts(c, st, p);
    ServerTerm(st, n, s);
    if msg.index <= n.commitIndex {
      st', moves := st, [];
      Stutters(c, c', st, p);
    } else {
      var m := PendingIs(st, n, s, msg);
      st', moves := S.Install(st, p, m), [S.InstallMove(p, m)];
      S.InstallKeeps(st, p, m);
      S.PathOne(st, S.InstallMove(p, m));
      NodeRelGrows(st, st', n, s);
      InstallMoves(st, p, m);
      S.Member(st, p);
      S.Member(st', p);
      InstalledNode(st, st', n, n', p, m, msg);
      OnwardSame(st, st', p);
      Restore(c, c', st, st', p);
    }
  }

  lemma InstallMoves(st: A.State, p: nat, m: A.SnapMsg)
    requires p < |st.servers| && |m.log| > 0
    ensures var st' := S.Install(st, p, m);
            && |st'.servers| == |st.servers| && st'.servers[p] == S.Installed(st.servers[p], m)
            && (forall q :: 0 <= q < |st.servers| && q != p ==> st'.servers[q] == st.servers[q])
            && st' == st.(servers := st'.servers)
  {
  }

  lemma PendingIs(st: A.State, n: Node, s: A.Server, msg: SnapshotMsg) returns (m: A.SnapMsg)
    requires NodeRel(st, n, s) && msg in n.pending
    ensures m in st.snaps && m.term <= s.term && SnapIs(m, msg.term, msg.index, msg.data)
    ensures |m.log| == msg.index + 1 && n.commitIndex == s.commit
  {
    assert PendingRel(st, s.term, msg);
    m :| m in st.snaps && m.term <= s.term && SnapIs(m, msg.term, msg.index, msg.data);
  }

  lemma InstalledNode(st: A.State, st': A.State, n: Node, n': Node, p: nat, m: A.SnapMsg, msg: SnapshotMsg)
    requires p < |st.servers| == |st'.servers| && NodeRel(st', n, st.servers[p]) && NodeFactsHold(st, n, st.servers[p])
    requires |m.log| > 0 && st'.servers[p] == S.Installed(st.servers[p], m) && st'.llog == st.llog
    requires A.LeaderOk(st, p) && A.LeaderOk(st', p) && A.ServerOk(st', st'.servers[p])
    requires SnapIs(m, msg.term, msg.index, msg.data) && msg.index > n.commitIndex
    requires n' == CondInstallSnapshot(n, msg).0
    ensures NodeRel(st', n', st'.servers[p])
  {
    hide Compact, InstalledLog, Commands, PeerRel, PendingRel, A.LeaderOk, A.WellFormed, A.Junk;
    var s, s' := st.servers[p], st'.servers[p];
    var first, k := FirstIndex(n.logs), msg.index;
    CompactInstall(s.log, first, m.log);
    CompactLookup(s'.log, k);
    InstalledPrefix(s, m);
    if n'.role == Leader {
      forall q | 0 <= q < |n'.nextIndex| && q < |n'.matchIndex|
        ensures PeerRel(st', n', s', q)
      {
        InstalledPeer(st, st', n, n', p, m, q);
      }
    }
  }

  lemma InstalledPrefix(s: A.Server, m: A.SnapMsg)
    requires |m.log| > 0
    ensures |S.Installed(s, m).log| >= |m.log| && S.Installed(s, m).log[1..|m.log|] == m.log[1..]
  {
    var log := S.Installed(s, m).log;
    assert log[..|m.log|] == m.log;
    assert log[1..|m.log|] == log[..|m.log|][1..];
  }

  /** A leader that installs keeps its log, so what it knows of its peers stays sound. */
  lemma InstalledPeer(st: A.State, st': A.State, n: Node, n': Node, p: nat, m: A.SnapMsg, q: nat)
    requires p < |st.servers| == |st'.servers| && A.LeaderOk(st, p) && A.LeaderOk(st', p) && st'.llog == st.llog
    requires |m.log| > 0 && st'.servers[p] == S.Installed(st.servers[p], m) && |m.log| - 1 > st.servers[p].commit
    requires st.servers[p].role == Leader && q < |n.nextIndex| && q < |n.matchIndex| && PeerRel(st', n, st.servers[p], q)
    requires n'.nextIndex == n.nextIndex && n'.matchIndex == n.matchIndex
    ensures PeerRel(st', n', st'.servers[p], q)
  {
  }

  lemma TakeSnapshotStep(c: Cluster, st: A.State, p: nat, index: nat) returns (st': A.State, moves: seq<S.Move>)
    requires Before(c, st, p) && Enabled(c, TakeSnapshot(p, index))
    ensures After(Do(c, TakeSnapshot(p, index)), st, moves, st')
    ensures |moves| <= 1
  {
    hide A.Inv, A.Grows, S.Path, E.Inv, NetRel, A.CandidateOk, A.LeaderOk, Trim, ServiceState, Compact;
    var c' := Do(c, TakeSnapshot(p, index));
    var n, n' := c.nodes[p], c'.nodes[p];
    var s := st.servers[p];
    Parts(c, st, p);
    st', moves := st, [];
    var first := FirstIndex(n.logs);
    if index > first {
      TrimCompact(s.log, first, index);
      CompactLookup(s.log, index);
      TrimmedState(n, s.log, index);
      forall q | 0 <= q < |n'.nextIndex| && q < |n'.matchIndex| && n'.role == Leader
        ensures PeerRel(st, n', s, q)
      {
        assert PeerRel(st, n, s, q);
      }
      assert NodeRel(st, n', s);
    }
    Stutters(c, c', st, p);
  }

  /** The service state at an index is what every command up to it makes. */
  lemma TrimmedState(n: Node, full: seq<Entry>, index: nat)
    requires FirstIndex(n.logs) <= index < |full| && n.logs == Compact(full, FirstIndex(n.logs))
    requires n.snapshot == Commands(full[1..FirstIndex(n.logs) + 1])
    ensures ServiceState(n, index) == Commands(full[1..index + 1])
  {
    hide Commands;
    var first := FirstIndex(n.logs);
    assert n.logs[1..index + 1 - first] == full[first + 1..index + 1];
    assert full[1..index + 1] == full[1..first + 1] + full[first + 1..index + 1];
    CommandsConcat(full[1..first + 1], full[first + 1..index + 1]);
  }

  lemma CommandsConcat(a: seq<Entry>, b: seq<Entry>)
    ensures Commands(a + b) == Commands(a) + Commands(b)
  {
  }

  // ---------- Crashes and the rest ----------

  /** A server of the leader's term whose log ends in that term has a prefix of the leader's log. */
  lemma BackerAgrees(st: A.State, s: A.Server)
    requires A.InvLogs(st) && A.InvCarried(st) && A.InvEvents(st) && A.ServerOk(st, s) && s.term in st.llog
    requires Last(s.log).term == s.term
    ensures |s.log| > 0 && Agree(s.log, st.llog[s.term], |s.log|)
  {
    hide A.InvCarried, A.InvEvents;
    S.CommitInLeader(st, s, s.term);
    var p := |s.log| - 1;
    assert p >= s.good ==> A.Junk(st, s.log, s.good, p);
    assert A.Ref(st, s.log, p);
  }

  lemma BackerConfirms(c: Cluster, st: A.State, p: nat, q: nat)
    requires Rel(c, st) && A.Inv(st) && p < |c.nodes| && q in Backers(c, p) && st.servers[p].role == Leader
    requires |st.servers| == |c.nodes|
    ensures q < |st.servers| && S.MayConfirm(st, q) && st.servers[q].term == st.servers[p].term
    ensures st.servers[p].commit < |st.servers[q].log|
  {
    hide A.InvLogs, A.InvCandidates, A.InvAcks, A.InvVotes, A.InvCarried, A.InvEvents, A.InvMsgs, A.InvForgot, NetRel;
    assert NodeRel(st, c.nodes[q], st.servers[q]) && NodeRel(st, c.nodes[p], st.servers[p]);
    assert A.ServerOk(st, st.servers[q]) && A.LeaderOk(st, p);
    NodeFacts(st, c.nodes[q], st.servers[q]);
    BackerAgrees(st, st.servers[q]);
  }

  /** All of them confirm, which changes no server. */
  lemma {:induction false} ConfirmAll(c: Cluster, st: A.State, p: nat, b: set<nat>) returns (st': A.State, moves: seq<S.Move>)
    requires Rel(c, st) && A.Inv(st) && p < |c.nodes| && b <= Backers(c, p) && |st.servers| == |c.nodes|
    requires st.servers[p].role == Leader
    ensures A.Inv(st') && A.Grows(st, st') && S.Path(st, moves, st') && st' == st.(acks := st'.acks)
    ensures forall q, i: nat :: q in b && i < |st.servers[q].log| && st.servers[q].log[i].term == st.servers[q].term ==>
              A.Ack(q, st.servers[q].term, i) in st'.acks
    decreases b
  {
    hide A.Inv, A.Grows, Rel, S.Path, S.MayConfirm, Backers;
    if b == {} {
      st', moves := st, [];
      GrowsAndPathSelf(st);
    } else {
      var q :| q in b;
      BackerConfirms(c, st, p, q);
      var mid, first := ConfirmAll(c, st, p, b - {q});
      SameButAcks(st, mid, q);
      st' := S.Confirm(mid, q);
      S.ConfirmKeeps(mid, q);
      S.PathOne(mid, S.ConfirmMove(q));
      moves := first + [S.ConfirmMove(q)];
      S.PathJoin(st, first, mid, [S.ConfirmMove(q)], st');
      A.GrowsTransitive(st, mid, st');
    }
  }

  lemma GrowsAndPathSelf(st: A.State)
    ensures A.Grows(st, st) && S.Path(st, [], st)
  {
  }

  lemma SameButAcks(st: A.State, st': A.State, q: nat)
    requires q < |st.servers| && S.MayConfirm(st, q) && st' == st.(acks := st'.acks)
    ensures S.MayConfirm(st', q)
  {
  }

  /** How far back storage reaches, on the full log. */
  lemma StoredPrefix(st: A.State, n: Node, s: A.Server)
    requires NodeRel(st, n, s) && NodeFactsHold(st, n, s) && LagOk(n)
    ensures var first, k := FirstIndex(n.logs), FirstIndex(n.logs) + |n.stable.logs|;
            && first < k <= |s.log| && n.stable.logs == Compact(s.log[..k], first)
            && FirstIndex(n.stable.logs) == first && LastLog(n.stable.logs).index == k - 1
            && (k < |s.log| ==> s.role == Leader)
            && (forall p :: k <= p < |s.log| ==> s.log[p].term == s.term)
  {
    var first, k := FirstIndex(n.logs), FirstIndex(n.logs) + |n.stable.logs|;
    assert n.stable.logs == n.logs[..|n.stable.logs|];
    assert s.log[..k][first + 1..] == s.log[first + 1..k];
    forall p | k <= p < |s.log|
      ensures s.log[p].term == s.term
    {
      assert n.logs[p - first].term == s.log[p].term;
    }
  }

  lemma CrashedNode(st': A.State, n: Node, s: A.Server, s': A.Server, k: nat)
    requires NodeRel(st', n, s) && FirstIndex(n.logs) < k <= |s.log|
    requires n.stable.logs == Compact(s.log[..k], FirstIndex(n.logs)) && n.stable.term == n.currentTerm
    requires s' == s.(role := Follower, commit := FirstIndex(n.logs), log := s.log[..k], good := Min(s.good, k))
    requires k < |s.log| ==> s.good == |s.log|
    ensures NodeRel(st', Restart(n), s')
  {
    hide Commands;
    var first := FirstIndex(n.logs);
    assert s.log[..k][1..first + 1] == s.log[1..first + 1];
    assert k == |s.log| ==> s.log[..k] == s.log;
  }

  /** After the others have confirmed, the crash is one the protocol allows. */
  lemma CrashAllowed(c: Cluster, st: A.State, p: nat, k: nat) returns (mid: A.State, moves: seq<S.Move>)
    requires Before(c, st, p) && Durable(c, CrashRestart(p))
    requires NodeRel(st, c.nodes[p], st.servers[p]) && A.ServerOk(st, st.servers[p]) && A.LeaderOk(st, p)
    requires var s, first := st.servers[p], FirstIndex(c.nodes[p].logs);
             && first < k <= |s.log| && LastLog(c.nodes[p].stable.logs).index == k - 1
             && (k < |s.log| ==> s.role == Leader) && (forall j :: k <= j < |s.log| ==> s.log[j].term == s.term)
    ensures A.Inv(mid) && A.Grows(st, mid) && S.Path(st, moves, mid) && mid == st.(acks := mid.acks)
    ensures S.MayCrash(mid, p, FirstIndex(c.nodes[p].logs), k)
  {
    hide A.Inv, A.Grows, S.Path, E.Inv, A.WellFormed, A.Junk, A.Justified, Rel, Backers;
    CountServers(c, st);
    var n, s := c.nodes[p], st.servers[p];
    if n.commitIndex <= LastLog(n.stable.logs).index || k == |s.log| {
      mid, moves := st, [];
      GrowsAndPathSelf(st);
    } else {
      var b := Backers(c, p);
      mid, moves := ConfirmAll(c, st, p, b);
      forall e | e in mid.commits && e.term == s.term && k <= e.index < |s.log|
        ensures 2 * |A.AckSet(mid, e.term, e.index) - {p}| >= |mid.servers|
      {
        BackersStand(c, st, mid, p, e);
        SubsetSize(b, A.AckSet(mid, e.term, e.index) - {p});
      }
    }
  }

  lemma BackersStand(c: Cluster, st: A.State, mid: A.State, p: nat, e: A.Event)
    requires Rel(c, st) && A.Inv(st) && A.Inv(mid) && p < |c.nodes| && |st.servers| == |c.nodes|
    requires mid == st.(acks := mid.acks) && A.LeaderOk(st, p) && st.servers[p].role == Leader
    requires e in st.commits && e.term == st.servers[p].term
    requires forall q, i: nat :: q in Backers(c, p) && i < |st.servers[q].log| && st.servers[q].log[i].term == st.servers[q].term ==>
               A.Ack(q, st.servers[q].term, i) in mid.acks
    ensures Backers(c, p) <= A.AckSet(mid, e.term, e.index) - {p}
  {
    hide Rel, S.MayConfirm, A.InvLogs, A.InvServers, A.InvLeaders, A.InvCandidates, A.InvAcks, A.InvVotes, A.InvCarried,
         A.InvMsgs;
    forall q | q in Backers(c, p)
      ensures q in A.AckSet(mid, e.term, e.index) && q != p
    {
      BackerConfirms(c, st, p, q);
      BackerEntry(st, q, e);
    }
  }

  lemma BackerEntry(st: A.State, q: nat, e: A.Event)
    requires A.InvEvents(st) && e in st.commits && q < |st.servers| && S.MayConfirm(st, q) && e.term == st.servers[q].term
    requires e.index < |st.servers[q].log|
    ensures st.servers[q].log[e.index].term == e.term
  {
    assert A.EventOk(st, e);
  }

  lemma CrashStep(c: Cluster, st: A.State, p: nat) returns (st': A.State, moves: seq<S.Move>)
    requires Before(c, st, p) && Durable(c, CrashRestart(p)) && LagOk(c.nodes[p])
    ensures After(Do(c, CrashRestart(p)), st, moves, st')
  {
    hide A.Inv, A.Grows, S.Path, E.Inv, NetRel, A.CandidateOk, A.LeaderOk, A.ServerOk, Compact, NodeRel, S.MayCrash,
         LagOk, Durable;
    var c' := Do(c, CrashRestart(p));
    var n := c.nodes[p];
    var s, first := st.servers[p], FirstIndex(n.logs);
    var k := first + |n.stable.logs|;
    Parts(c, st, p);
    StoredPrefix(st, n, s);
    var mid, confirms := CrashAllowed(c, st, p, k);
    st' := S.Crash(mid, p, first, k);
    S.CrashKeeps(mid, p, first, k);
    S.PathOne(mid, S.CrashMove(p, first, k));
    moves := confirms + [S.CrashMove(p, first, k)];
    S.PathJoin(st, confirms, mid, [S.CrashMove(p, first, k)], st');
    A.GrowsTransitive(st, mid, st');
    NodeRelGrows(st, st', n, s);
    ServerGood(mid, p, first, k);
    CrashedNode(st', n, s, st'.servers[p], k);
    OnwardSame(st, st', p);
    Restore(c, c', st, st', p);
  }

  lemma ServerGood(st: A.State, p: nat, c: nat, k: nat)
    requires p < |st.servers| && S.MayCrash(st, p, c, k) && A.Inv(st)
    ensures k < |st.servers[p].log| ==> st.servers[p].good == |st.servers[p].log|
  {
    hide A.InvLogs, A.InvServers, A.InvCandidates, A.InvAcks, A.InvVotes, A.InvCarried, A.InvEvents, A.InvMsgs, A.InvForgot;
    assert A.LeaderOk(st, p);
  }

  // ---------- What storage lacks ----------

  /** A leader is never sent a snapshot of its own term. */
  lemma NotToLeader(c: Cluster, st: A.State, p: nat, a: SnapRequest)
    requires Rel(c, st) && A.Inv(st) && p < |c.nodes| && AskSnap(p, a) in c.net && c.nodes[p].currentTerm == a.term
    ensures c.nodes[p].role != Leader
  {
    hide A.InvLogs, A.InvServers, A.InvCandidates, A.InvAcks, A.InvVotes, A.InvCarried, A.InvEvents, A.InvMsgs,
         A.InvForgot, NetRel;
    GetMsg(c, st, AskSnap(p, a));
    assert NodeRel(st, c.nodes[p], st.servers[p]) && A.LeaderOk(st, p);
  }

  /** Steps that store the log whatever they do. */
  lemma AlwaysStored(n: Node, ask: VoteRequest, a: AppendRequest, msg: SnapshotMsg)
    ensures LagOk(StartElection(n).0) && LagOk(HandleVoteRequest(n, ask).0) && LagOk(Restart(n))
    ensures a.term >= n.currentTerm || LagOk(n) ==> LagOk(HandleAppend(n, a).0)
    ensures msg.index > n.commitIndex || LagOk(n) ==> LagOk(CondInstallSnapshot(n, msg).0)
  {
    hide Splice, ScanBack, MatchLog, InstalledLog, UpToDate;
  }

  lemma RepliesStored(n: Node, from: nat, ask: VoteRequest, vote: VoteResponse, a: AppendRequest, r: AppendResponse, b: SnapRequest, x: SnapResponse)
    requires LagOk(n)
    ensures LagOk(HandleVoteResponse(n, from, ask, vote)) && LagOk(HandleAppendResponse(n, from, a, r))
    ensures LagOk(HandleSnapResponse(n, from, b, x))
  {
    hide MedianOf, MatchLog, NextAfter;
  }

  lemma OwnLags(n: Node, cmd: Command, index: nat, data: seq<Command>)
    requires LagOk(n)
    ensures LagOk(Start(n, cmd)) && LagOk(Snapshot(n, index, data)) && LagOk(Applied(n, index))
  {
    hide Trim;
  }

  lemma SnapLags(n: Node, a: SnapRequest)
    requires LagOk(n) && (n.currentTerm == a.term ==> n.role != Leader)
    ensures LagOk(HandleSnap(n, a).0)
  {
  }

  lemma LagStep(c: Cluster, st: A.State, s: Step)
    requires Rel(c, st) && A.Inv(st) && Enabled(c, s) && LagsOk(c)
    ensures LagsOk(Do(c, s))
  {
    hide A.Inv, Rel, LagOk, StartElection, HandleVoteRequest, HandleVoteResponse, Start, HandleAppend, HandleAppendResponse,
         HandleSnap, HandleSnapResponse, CondInstallSnapshot, Snapshot, Applied, Restart, ServiceState, ReplicateOneRound;
    var n := c.nodes[s.p];
    assert LagOk(n);
    match s {
      case Elect(_) => AlwaysStored(n, VoteRequest(0, 0, 0, 0), NoAppend(), SnapshotMsg(0, 0, []));
      case OnAskVote(_, ask) => AlwaysStored(n, ask, NoAppend(), SnapshotMsg(0, 0, []));
      case OnReplyVote(_, from, ask, vote) =>
        RepliesStored(n, from, ask, vote, NoAppend(), AppendResponse(0, false, 0, 0), SnapRequest(0, 0, 0, 0, []), SnapResponse(0));
      case Propose(_, cmd) => OwnLags(n, cmd, 0, []);
      case Replicate(_, _) =>
      case OnAskAppend(_, a) => AlwaysStored(n, VoteRequest(0, 0, 0, 0), a, SnapshotMsg(0, 0, []));
      case OnReplyAppend(_, from, a, r) =>
        RepliesStored(n, from, VoteRequest(0, 0, 0, 0), VoteResponse(0, false), a, r, SnapRequest(0, 0, 0, 0, []), SnapResponse(0));
      case OnAskSnap(_, a) =>
        if n.currentTerm == a.term {
          NotToLeader(c, st, s.p, a);
        }
        SnapLags(n, a);
      case OnReplySnap(_, from, a, r) =>
        RepliesStored(n, from, VoteRequest(0, 0, 0, 0), VoteResponse(0, false), NoAppend(), AppendResponse(0, false, 0, 0), a, r);
      case Install(_, msg) => AlwaysStored(n, VoteRequest(0, 0, 0, 0), NoAppend(), msg);
      case TakeSnapshot(_, index) => OwnLags(n, Nil, index, ServiceState(n, index));
      case EndBatch(_, index) => OwnLags(n, Nil, index, []);
      case CrashRestart(_) => AlwaysStored(n, VoteRequest(0, 0, 0, 0), NoAppend(), SnapshotMsg(0, 0, []));
    }
  }

  function NoAppend(): AppendRequest {
    AppendRequest(0, 0, 0, 0, [], 0)
  }

  lemma EndBatchStep(c: Cluster, st: A.State, p: nat, index: nat) returns (st': A.State, moves: seq<S.Move>)
    requires Before(c, st, p)
    ensures After(Do(c, EndBatch(p, index)), st, moves, st')
    ensures |moves| <= 1
  {
    hide A.Inv, A.Grows, S.Path, E.Inv, NetRel, A.CandidateOk, A.LeaderOk, A.ServerOk, NodeRel;
    var c' := Do(c, EndBatch(p, index));
    Parts(c, st, p);
    st', moves := st, [];
    NodeSame(st, c.nodes[p], c'.nodes[p], st.servers[p]);
    Stutters(c, c', st, p);
  }

  /**
   * Every durable step of the cluster is matched by one move of the protocol or none; a crash by
   * confirmations of what others hold, and the crash.
   */
  lemma MatchStep(c: Cluster, st: A.State, s: Step) returns (st': A.State, moves: seq<S.Move>)
    requires Rel(c, st) && A.Inv(st) && E.Inv(c) && LagsOk(c) && Enabled(c, s) && Durable(c, s)
    ensures After(Do(c, s), st, moves, st') && E.Inv(Do(c, s)) && LagsOk(Do(c, s))
    ensures !s.CrashRestart? ==> |moves| <= 1
  {
    hide A.Inv, E.Inv, Rel, Onward, Do, S.Path, LagOk, Durable;
    E.EnabledServer(c, s);
    E.StepOk(c, s);
    LagStep(c, st, s);
    match s {
      case Elect(p) => st', moves := ElectStep(c, st, p);
      case OnAskVote(p, ask) => st', moves := AskVoteStep(c, st, p, ask);
      case OnReplyVote(p, from, ask, vote) => st', moves := ReplyVoteStep(c, st, p, from, ask, vote);
      case Propose(p, cmd) => st', moves := ProposeStep(c, st, p, cmd);
      case Replicate(p, peer) => st', moves := ReplicateStep(c, st, p, peer);
      case OnAskAppend(p, a) => st', moves := AskAppendStep(c, st, p, a);
      case OnReplyAppend(p, from, a, r) => st', moves := ReplyAppendStep(c, st, p, from, a, r);
      case OnAskSnap(p, a) => st', moves := AskSnapStep(c, st, p, a);
      case OnReplySnap(p, from, a, r) => st', moves := ReplySnapStep(c, st, p, from, a, r);
      case Install(p, msg) => st', moves := InstallStep(c, st, p, msg);
      case TakeSnapshot(p, index) => st', moves := TakeSnapshotStep(c, st, p, index);
      case EndBatch(p, index) => st', moves := EndBatchStep(c, st, p, index);
      case CrashRestart(p) => st', moves := CrashStep(c, st, p);
    }
  }
}
