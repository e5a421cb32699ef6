/**
 * Which terms and votes there are, in every run and with any crash: no log runs ahead of its
 * server's term, a leader's own entries are the last of its log, and the vote a server is bound
 * by was cast.
 */
module Terms {
  import opened Types
  import opened LogStore
  import opened Rpc
  import opened Median
  import opened Handlers
  import opened Cluster
  import B = Bounds
  import D = Durability
  import E = Election

  predicate UpTo(entries: seq<Entry>, t: nat) {
    forall j :: 0 <= j < |entries| ==> entries[j].term <= t
  }

  predicate Before(entries: seq<Entry>, t: nat) {
    forall j :: 0 <= j < |entries| ==> entries[j].term < t
  }

  /** After an entry of term t come only entries of term t. */
  predicate OwnLast(entries: seq<Entry>, t: nat) {
    forall i, j :: 0 <= i <= j < |entries| && entries[i].term == t ==> entries[j].term == t
  }

  /** A snapshot waiting for the service is no newer than the server, and older than one it may lead with. */
  predicate PendingOk(n: Node) {
    forall s :: s in n.pending ==> s.term <= n.currentTerm && (n.role != Follower ==> s.term < n.currentTerm)
  }

  predicate NodeOk(n: Node) {
    && UpTo(n.logs, n.currentTerm) && PendingOk(n)
    && (n.role == Candidate ==> Before(n.logs, n.currentTerm))
    && (n.role == Leader ==> OwnLast(n.logs, n.currentTerm))
  }

  predicate MsgOk(m: Msg) {
    match m
    case AskAppend(_, a) => UpTo(a.entries, a.term)
    case AskSnap(_, a) => a.lastTerm <= a.term
    case _ => true
  }

  predicate Voted(c: Cluster, p: nat)
    requires p < |c.nodes|
  {
    var n := c.nodes[p];
    n.votedFor != -1 ==> n.votedFor >= 0 && Vote(p, n.currentTerm, n.votedFor) in c.votes
  }

  ghost predicate Inv(c: Cluster) {
    && (forall p :: 0 <= p < |c.nodes| ==> NodeOk(c.nodes[p]) && Voted(c, p))
    && (forall m :: m in c.net ==> MsgOk(m))
  }

  // ---------- What the handlers leave ----------

  lemma {:induction false} SpliceUpTo(logs: Log, entries: seq<Entry>, t: nat)
    requires UpTo(logs, t) && UpTo(entries, t)
    ensures UpTo(Splice(logs, entries), t)
    decreases |entries|
  {
    if entries != [] && MatchLog(logs, entries[0].term, entries[0].index) {
      SpliceUpTo(logs, entries[1..], t);
    }
  }

  lemma AppendOk(n: Node, a: AppendRequest)
    requires NodeOk(n) && UpTo(a.entries, a.term)
    ensures NodeOk(HandleAppend(n, a).0)
  {
    hide Splice, ScanBack, MatchLog;
    SpliceUpTo(n.logs, a.entries, Max(n.currentTerm, a.term));
  }

  lemma TrimOk(n: Node, index: nat, data: seq<Command>)
    requires NodeOk(n)
    ensures NodeOk(Snapshot(n, index, data))
  {
    var k := index - FirstIndex(n.logs);
    if 0 < k < |n.logs| {
      assert Trim(n.logs, index) == [n.logs[k].(command := Nil)] + n.logs[k + 1..];
    }
  }

  lemma InstallOk(n: Node, s: SnapshotMsg)
    requires NodeOk(n) && s in n.pending
    ensures NodeOk(CondInstallSnapshot(n, s).0)
  {
    if InLog(n.logs, s.index) {
      assert InstalledLog(n.logs, s.term, s.index) == [Entry(s.index, s.term, Nil)] + n.logs[s.index - FirstIndex(n.logs) + 1..];
    }
  }

  lemma RestartOk(n: Node)
    requires NodeOk(n) && n.stable.logs <= n.logs && n.stable.term == n.currentTerm
    ensures NodeOk(Restart(n))
  {
  }

  lemma StartOk(n: Node, cmd: Command)
    requires NodeOk(n)
    ensures NodeOk(Start(n, cmd))
  {
  }

  lemma ElectionOk(n: Node, from: nat, ask: VoteRequest, vote: VoteResponse)
    requires NodeOk(n)
    ensures NodeOk(StartElection(n).0) && NodeOk(HandleVoteRequest(n, ask).0) && NodeOk(HandleVoteResponse(n, from, ask, vote))
  {
    hide UpToDate;
  }

  lemma SnapOk(n: Node, a: SnapRequest)
    requires NodeOk(n) && a.lastTerm <= a.term
    ensures NodeOk(HandleSnap(n, a).0)
  {
  }

  lemma RepliesOk(n: Node, from: nat, a: AppendRequest, r: AppendResponse, b: SnapRequest, x: SnapResponse, index: nat)
    requires NodeOk(n)
    ensures NodeOk(HandleAppendResponse(n, from, a, r)) && NodeOk(HandleSnapResponse(n, from, b, x)) && NodeOk(Applied(n, index))
  {
    hide MedianOf, NextAfter, MatchLog;
  }

  lemma MovedNode(c: Cluster, s: Step)
    requires Inv(c) && E.Inv(c) && D.Stored(c) && Enabled(c, s) && s.p < |c.nodes|
    ensures NodeOk(Do(c, s).nodes[s.p])
  {
    hide NodeOk, E.Inv, E.NodeOk, StartElection, HandleVoteRequest, HandleVoteResponse, Start, HandleAppend,
         HandleAppendResponse, HandleSnap, HandleSnapResponse, CondInstallSnapshot, Snapshot, Applied, Restart, ReplicateOneRound;
    var n := c.nodes[s.p];
    assert NodeOk(n);
    var noVote, noReply := VoteRequest(0, 0, 0, 0), VoteResponse(0, false);
    var noAppend, noResult := AppendRequest(0, 0, 0, 0, [], 0), AppendResponse(0, false, 0, 0);
    var noSnap, noAnswer := SnapRequest(0, 0, 0, 0, []), SnapResponse(0);
    match s {
      case Elect(_) => ElectionOk(n, 0, noVote, noReply);
      case OnAskVote(_, ask) => ElectionOk(n, 0, ask, noReply);
      case OnReplyVote(_, from, ask, vote) => ElectionOk(n, from, ask, vote);
      case Propose(_, cmd) => StartOk(n, cmd);
      case Replicate(_, _) =>
      case OnAskAppend(p, a) =>
        assert MsgOk(AskAppend(p, a));
        AppendOk(n, a);
      case OnReplyAppend(_, from, a, r) => RepliesOk(n, from, a, r, noSnap, noAnswer, 0);
      case OnAskSnap(p, a) =>
        assert MsgOk(AskSnap(p, a));
        SnapOk(n, a);
      case OnReplySnap(_, from, a, r) => RepliesOk(n, from, noAppend, noResult, a, r, 0);
      case Install(_, msg) => InstallOk(n, msg);
      case TakeSnapshot(_, index) => TrimOk(n, index, ServiceState(n, index));
      case EndBatch(_, index) => RepliesOk(n, 0, noAppend, noResult, noSnap, noAnswer, index);
      case CrashRestart(p) =>
        E.GetNode(c, p);
        B.StoredTerm(c, p);
        RestartOk(n);
    }
  }

  /** Only standing for a term and granting a vote bind a server anew. */
  lemma VoteStays(c: Cluster, s: Step)
    requires s.p < |c.nodes| && c.nodes[s.p].stable.term == c.nodes[s.p].currentTerm
    requires c.nodes[s.p].stable.votedFor == c.nodes[s.p].votedFor && !s.Elect? && !s.OnAskVote?
    ensures var n, n' := c.nodes[s.p], Do(c, s).nodes[s.p];
            n'.votedFor == -1 || (n'.votedFor == n.votedFor && n'.currentTerm == n.currentTerm)
  {
    hide MedianOf, Splice, ScanBack, InstalledLog, Trim, NextAfter, MatchLog;
  }

  lemma VoteCast(c: Cluster, s: Step)
    requires s.p < |c.nodes| == |Do(c, s).nodes| && E.NodeOk(c, s.p) && Voted(c, s.p) && (s.Elect? || s.OnAskVote?)
    ensures Voted(Do(c, s), s.p)
  {
    hide UpToDate;
  }

  /** Whatever a server is bound by has been recorded. */
  lemma MovedVote(c: Cluster, s: Step)
    requires Inv(c) && E.Inv(c) && Enabled(c, s) && s.p < |c.nodes| == |Do(c, s).nodes|
    ensures Voted(Do(c, s), s.p)
  {
    hide NodeOk, MsgOk, Do, E.Inv, E.Supporters;
    E.GetNode(c, s.p);
    assert Voted(c, s.p);
    if s.Elect? || s.OnAskVote? {
      VoteCast(c, s);
    } else {
      VoteStays(c, s);
      DoGrows(c, s);
    }
  }

  lemma SentOk(c: Cluster, s: Step)
    requires Inv(c) && Enabled(c, s) && s.p < |c.nodes|
    ensures forall m :: m in Do(c, s).net && m !in c.net ==> MsgOk(m)
  {
    hide PendingOk, Before, OwnLast, HandleAppend, HandleVoteRequest, HandleSnap, StartElection;
    assert NodeOk(c.nodes[s.p]);
  }

  lemma StepOk(c: Cluster, s: Step)
    requires Inv(c) && E.Inv(c) && D.Stored(c) && Enabled(c, s) && s.p < |c.nodes|
    ensures Inv(Do(c, s))
  {
    hide Do, NodeOk, MsgOk, E.Inv, D.Stored, Enabled, E.MsgOk;
    E.NewMessages(c, s);
    MovedNode(c, s);
    MovedVote(c, s);
    SentOk(c, s);
  }

  lemma InitOk(n: nat)
    ensures Inv(Init(n))
  {
  }

  lemma {:induction false} RunOk(n: nat, steps: seq<Step>)
    requires IsRun(Init(n), steps)
    ensures Inv(Exec(Init(n), steps)) && |Exec(Init(n), steps).nodes| == n
    decreases |steps|
  {
    hide Do, Enabled, Inv, E.Inv, D.Stored;
    if steps == [] {
      InitOk(n);
    } else {
      var init := steps[..|steps| - 1];
      RunOk(n, init);
      E.RunOk(n, init);
      D.StoredIsPrefix(n, init);
      E.EnabledServer(Exec(Init(n), init), Last(steps));
      StepOk(Exec(Init(n), init), Last(steps));
    }
  }

  lemma GetNode(c: Cluster, p: nat)
    requires Inv(c) && p < |c.nodes|
    ensures NodeOk(c.nodes[p]) && Voted(c, p)
  {
  }
}
