/**
 * What stays in bounds in every run, whatever any crash loses: the shape of logs and requests,
 * and everything a leader slices and searches with.  A server that led a term never leads it
 * again, so while it leads, what it sent in that term lies in its log.
 */
module Bounds {
  import opened Types
  import opened LogStore
  import opened Rpc
  import opened Median
  import opened Handlers
  import opened Cluster
  import E = Election
  import D = Durability

  /** Numbered without gaps, and only the entry at index 0 has term 0. */
  predicate Shaped(logs: Log) {
    Contiguous(logs) && forall j :: 0 <= j < |logs| ==> (logs[j].term == 0 <==> logs[j].index == 0)
  }

  predicate SameAt(a: Log, b: Log, i: int) {
    InLog(a, i) && InLog(b, i) && b[i - FirstIndex(b)] == a[i - FirstIndex(a)]
  }

  /** The later log starts and ends no earlier and has the same entries where both have one. */
  predicate Keeps(a: Log, b: Log) {
    && FirstIndex(a) <= FirstIndex(b) && LastLog(a).index <= LastLog(b).index
    && (forall i :: FirstIndex(b) < i <= LastLog(a).index ==> SameAt(a, b, i))
    && (FirstIndex(a) == FirstIndex(b) ==> a <= b)
  }

  predicate Leads(n: Node, term: nat) {
    n.role == Leader && n.currentTerm == term
  }

  predicate IndicesIn(n: Node) {
    && (forall q :: 0 <= q < |n.nextIndex| ==> 0 <= n.nextIndex[q] <= LastIndex(n) + 1)
    && (forall q :: 0 <= q < |n.matchIndex| ==> n.matchIndex[q] <= LastIndex(n))
  }

  ghost predicate NodeOk(n: Node) {
    && Shaped(n.logs) && FirstIndex(n.logs) <= n.commitIndex
    && (n.role != Follower ==> n.currentTerm > 0)
    && (forall s :: s in n.pending ==> (s.term == 0 <==> s.index == 0))
    && (n.role == Leader ==> IndicesIn(n))
  }

  /** The server was elected for the term and has not stood for it again. */
  ghost predicate Elected(c: Cluster, term: nat, leader: nat) {
    && leader < |c.nodes| && Majority(E.Supporters(c, term, leader), |c.nodes|)
    && c.nodes[leader].currentTerm >= term
    && (c.nodes[leader].currentTerm == term ==> c.nodes[leader].role != Candidate)
  }

  predicate RequestShaped(a: AppendRequest) {
    && 0 <= a.prevIndex && (a.prevTerm == 0 <==> a.prevIndex == 0)
    && forall k :: 0 <= k < |a.entries| ==> a.entries[k].index == a.prevIndex + 1 + k && a.entries[k].term > 0
  }

  /** The log still has every entry of the request that it has not compacted. */
  predicate Covers(logs: Log, a: AppendRequest) {
    && a.prevIndex + |a.entries| <= LastLog(logs).index
    && forall k :: 0 <= k < |a.entries| && FirstIndex(logs) <= a.prevIndex + k ==>
         HasEntry(logs, a.prevIndex + 1 + k, a.entries[k])
  }

  ghost predicate RequestOk(c: Cluster, a: AppendRequest) {
    && RequestShaped(a) && Elected(c, a.term, a.leader)
    && (Leads(c.nodes[a.leader], a.term) ==> Covers(c.nodes[a.leader].logs, a))
  }

  ghost predicate SnapOk(c: Cluster, a: SnapRequest) {
    && (a.lastTerm == 0 <==> a.lastIndex == 0) && Elected(c, a.term, a.leader)
    && (Leads(c.nodes[a.leader], a.term) ==> a.lastIndex <= FirstIndex(c.nodes[a.leader].logs))
  }

  predicate RejectionInside(a: AppendRequest, r: AppendResponse) {
    !r.success && r.term == a.term ==> 0 <= r.conflictIndex <= a.prevIndex
  }

  ghost predicate MsgOk(c: Cluster, m: Msg) {
    match m
    case AskAppend(_, a) => RequestOk(c, a)
    case ReplyAppend(from, a, r) => from < |c.nodes| && RequestOk(c, a) && RejectionInside(a, r)
    case AskSnap(_, a) => SnapOk(c, a)
    case ReplySnap(from, a, _) => from < |c.nodes| && SnapOk(c, a)
    case _ => true
  }

  ghost predicate Inv(c: Cluster) {
    && (forall p :: 0 <= p < |c.nodes| ==> NodeOk(c.nodes[p]))
    && (forall m :: m in c.net ==> MsgOk(c, m))
  }

  // ---------- One server moves ----------

  /** No term is stood for or led again, and a leader that leads on keeps its log. */
  predicate Onward(n: Node, n': Node) {
    && n'.currentTerm >= n.currentTerm
    && (n'.role == Candidate && n'.currentTerm == n.currentTerm ==> n.role == Candidate)
    && (n'.role == Leader ==> n.role != Follower && n'.currentTerm == n.currentTerm)
    && (n.role == Leader && n'.role == Leader ==> Keeps(n.logs, n'.logs))
  }

  lemma KeepsOn(a: Log, b: Log, c: Log)
    requires Keeps(a, b) && Keeps(b, c)
    ensures Keeps(a, c)
  {
    forall i | FirstIndex(c) < i <= LastLog(a).index
      ensures SameAt(a, c, i)
    {
      assert SameAt(a, b, i) && SameAt(b, c, i);
    }
  }

  lemma Ends(logs: Log)
    requires Contiguous(logs)
    ensures LastLog(logs).index == FirstIndex(logs) + |logs| - 1
  {
  }

  lemma KeepsSelf(a: Log)
    requires Contiguous(a)
    ensures Keeps(a, a)
  {
    Ends(a);
  }

  /** The later log repeats the earlier one from some index after its placeholder on. */
  lemma Shifted(a: Log, b: Log, d: nat)
    requires Contiguous(a) && Contiguous(b) && FirstIndex(b) == FirstIndex(a) + d && d + |b| >= |a|
    requires forall j :: 0 < j < |b| && j + d < |a| ==> b[j] == a[j + d]
    requires d == 0 ==> a <= b
    ensures Keeps(a, b)
  {
    Ends(a);
    Ends(b);
    forall i | FirstIndex(b) < i <= LastLog(a).index
      ensures SameAt(a, b, i)
    {
      assert b[i - FirstIndex(b)] == a[i - FirstIndex(b) + d];
    }
  }

  lemma CoversOn(a: Log, b: Log, r: AppendRequest)
    requires Keeps(a, b) && Covers(a, r)
    ensures Covers(b, r)
  {
    forall k | 0 <= k < |r.entries| && FirstIndex(b) <= r.prevIndex + k
      ensures HasEntry(b, r.prevIndex + 1 + k, r.entries[k])
    {
      var i := r.prevIndex + 1 + k;
      assert HasEntry(a, i, r.entries[k]) && SameAt(a, b, i);
    }
  }

  lemma ElectedOn(c: Cluster, c': Cluster, p: nat, term: nat, leader: nat)
    requires p < |c.nodes| == |c'.nodes| && c.votes <= c'.votes && Onward(c.nodes[p], c'.nodes[p])
    requires forall q :: 0 <= q < |c.nodes| && q != p ==> c'.nodes[q] == c.nodes[q]
    requires Elected(c, term, leader)
    ensures Elected(c', term, leader)
    ensures Leads(c'.nodes[leader], term) ==> Leads(c.nodes[leader], term)
    ensures leader != p || (c'.nodes[leader].role == c.nodes[leader].role == Leader ==> Keeps(c.nodes[leader].logs, c'.nodes[leader].logs))
  {
    hide Keeps;
    SubsetSize(E.Supporters(c, term, leader), E.Supporters(c', term, leader));
  }

  /** What was sent before p moved is as good after. */
  lemma MsgStays(c: Cluster, c': Cluster, p: nat, m: Msg)
    requires p < |c.nodes| == |c'.nodes| && c.votes <= c'.votes && Onward(c.nodes[p], c'.nodes[p])
    requires forall q :: 0 <= q < |c.nodes| && q != p ==> c'.nodes[q] == c.nodes[q]
    requires MsgOk(c, m)
    ensures MsgOk(c', m)
  {
    hide Elected, Covers, Keeps, Onward, RequestShaped, RejectionInside;
    if m.AskAppend? || m.ReplyAppend? {
      var a := m.append;
      ElectedOn(c, c', p, a.term, a.leader);
      ElectedServer(c, a.term, a.leader);
      if Leads(c'.nodes[a.leader], a.term) && a.leader == p {
        CoversOn(c.nodes[p].logs, c'.nodes[p].logs, a);
      }
    } else if m.AskSnap? || m.ReplySnap? {
      var a := m.snap;
      ElectedOn(c, c', p, a.term, a.leader);
      ElectedServer(c, a.term, a.leader);
      if Leads(c'.nodes[a.leader], a.term) && a.leader == p {
        FirstOn(c.nodes[p].logs, c'.nodes[p].logs);
      }
    }
  }

  lemma FirstOn(a: Log, b: Log)
    requires Keeps(a, b)
    ensures FirstIndex(a) <= FirstIndex(b)
  {
  }

  lemma ElectedServer(c: Cluster, term: nat, leader: nat)
    requires Elected(c, term, leader)
    ensures leader < |c.nodes|
  {
  }

  lemma Moved(c: Cluster, c': Cluster, p: nat)
    requires Inv(c) && p < |c.nodes| == |c'.nodes| && c.votes <= c'.votes
    requires forall q :: 0 <= q < |c.nodes| && q != p ==> c'.nodes[q] == c.nodes[q]
    requires NodeOk(c'.nodes[p]) && Onward(c.nodes[p], c'.nodes[p])
    requires forall m :: m in c'.net && m !in c.net ==> MsgOk(c', m)
    ensures Inv(c')
  {
    hide NodeOk, MsgOk, Onward;
    forall m | m in c'.net
      ensures MsgOk(c', m)
    {
      if m in c.net {
        MsgStays(c, c', p, m);
      }
    }
  }

  // ---------- What each handler does to a log ----------

  /** The splice of a request that passed the check keeps the shape and the placeholder. */
  lemma {:induction false} SpliceShaped(logs: Log, entries: seq<Entry>, prev: int)
    requires Shaped(logs) && FirstIndex(logs) <= prev && InLog(logs, prev)
    requires forall k :: 0 <= k < |entries| ==> entries[k].index == prev + 1 + k && entries[k].term > 0
    ensures Shaped(Splice(logs, entries)) && FirstIndex(Splice(logs, entries)) == FirstIndex(logs)
    decreases |entries|
  {
    if entries != [] {
      if MatchLog(logs, entries[0].term, entries[0].index) {
        SpliceShaped(logs, entries[1..], prev + 1);
      } else {
        var taken := logs[..prev + 1 - FirstIndex(logs)];
        assert Splice(logs, entries) == taken + entries;
      }
    }
  }

  lemma TrimKeeps(logs: Log, k: nat)
    requires Shaped(logs)
    ensures Shaped(Trim(logs, k)) && Keeps(logs, Trim(logs, k)) && FirstIndex(Trim(logs, k)) <= Max(k, FirstIndex(logs))
  {
    hide Keeps;
    var t, first := Trim(logs, k), FirstIndex(logs);
    if first < k < first + |logs| {
      assert t == [logs[k - first].(command := Nil)] + logs[k - first + 1..];
      Shifted(logs, t, k - first);
    } else {
      KeepsSelf(logs);
    }
  }

  lemma InstallKeeps(logs: Log, term: nat, k: nat)
    requires Shaped(logs) && FirstIndex(logs) < k && term > 0
    ensures Shaped(InstalledLog(logs, term, k)) && Keeps(logs, InstalledLog(logs, term, k)) && FirstIndex(InstalledLog(logs, term, k)) == k
  {
    hide Keeps;
    var t, first := InstalledLog(logs, term, k), FirstIndex(logs);
    if InLog(logs, k) {
      assert t == [Entry(k, term, Nil)] + logs[k - first + 1..];
    }
    Shifted(logs, t, k - first);
  }

  lemma AppendKeeps(logs: Log, e: Entry)
    requires Shaped(logs) && e.index == LastLog(logs).index + 1 && e.term > 0
    ensures Shaped(logs + [e]) && Keeps(logs, logs + [e])
  {
    Ends(logs);
    Shifted(logs, logs + [e], 0);
  }

  // ---------- The server that moves ----------

  lemma ElectionOk(n: Node)
    requires NodeOk(n)
    ensures NodeOk(StartElection(n).0) && Onward(n, StartElection(n).0)
  {
    hide Shaped, IndicesIn;
  }

  lemma VoteOk(n: Node, ask: VoteRequest)
    requires NodeOk(n)
    ensures NodeOk(HandleVoteRequest(n, ask).0) && Onward(n, HandleVoteRequest(n, ask).0)
  {
    hide UpToDate, Keeps;
    KeepsSelf(n.logs);
  }

  lemma CountOk(n: Node, from: nat, ask: VoteRequest, vote: VoteResponse)
    requires NodeOk(n)
    ensures var n' := HandleVoteResponse(n, from, ask, vote); NodeOk(n') && Onward(n, n')
  {
    hide Keeps;
    KeepsSelf(n.logs);
  }

  lemma StartOk(n: Node, cmd: Command)
    requires NodeOk(n)
    ensures NodeOk(Start(n, cmd)) && Onward(n, Start(n, cmd))
  {
    hide Shaped, Keeps;
    ShapedKeeps(n.logs);
    if n.role == Leader {
      AppendKeeps(n.logs, Entry(LastIndex(n) + 1, n.currentTerm, cmd));
    }
  }

  lemma ShapedKeeps(logs: Log)
    requires Shaped(logs)
    ensures Keeps(logs, logs)
  {
    KeepsSelf(logs);
  }

  lemma AppendOk(n: Node, a: AppendRequest)
    requires NodeOk(n) && RequestShaped(a)
    ensures NodeOk(HandleAppend(n, a).0) && Onward(n, HandleAppend(n, a).0)
  {
    hide Splice, Keeps, ScanBack, Shaped;
    ShapedKeeps(n.logs);
    if a.prevIndex >= FirstIndex(n.logs) && MatchLog(n.logs, a.prevTerm, a.prevIndex) {
      SpliceShaped(n.logs, a.entries, a.prevIndex);
    }
  }

  lemma ReplyOk(n: Node, from: nat, a: AppendRequest, r: AppendResponse)
    requires NodeOk(n) && 0 <= a.prevIndex && RejectionInside(a, r)
    requires Leads(n, a.term) ==> a.prevIndex + |a.entries| <= LastIndex(n)
    ensures var n' := HandleAppendResponse(n, from, a, r); NodeOk(n') && Onward(n, n')
  {
    hide MedianOf, MatchLog, FindTerm, Shaped, Keeps;
    ShapedKeeps(n.logs);
    var n' := HandleAppendResponse(n, from, a, r);
    if Leads(n, a.term) && !r.success && r.term == n.currentTerm {
      assert 0 <= NextAfter(n.logs, a, r) <= a.prevIndex + 1;
    }
  }

  lemma SnapTaken(n: Node, a: SnapRequest)
    requires NodeOk(n) && (a.lastTerm == 0 <==> a.lastIndex == 0)
    ensures NodeOk(HandleSnap(n, a).0) && Onward(n, HandleSnap(n, a).0)
  {
    hide Keeps, Shaped;
    ShapedKeeps(n.logs);
  }

  lemma SnapCounted(n: Node, from: nat, a: SnapRequest, r: SnapResponse)
    requires NodeOk(n) && (Leads(n, a.term) ==> a.lastIndex <= FirstIndex(n.logs))
    ensures var n' := HandleSnapResponse(n, from, a, r); NodeOk(n') && Onward(n, n')
  {
    hide Keeps;
    KeepsSelf(n.logs);
  }

  lemma InstallOk(n: Node, s: SnapshotMsg)
    requires NodeOk(n) && s in n.pending
    ensures var n' := CondInstallSnapshot(n, s).0; NodeOk(n') && Onward(n, n')
  {
    hide Keeps, Shaped, InstalledLog;
    ShapedKeeps(n.logs);
    if s.index > n.commitIndex {
      InstallKeeps(n.logs, s.term, s.index);
      LastOn(n.logs, InstalledLog(n.logs, s.term, s.index));
    }
  }

  lemma LastOn(a: Log, b: Log)
    requires Keeps(a, b)
    ensures LastLog(a).index <= LastLog(b).index
  {
  }

  lemma TrimOk(n: Node, index: nat, data: seq<Command>)
    requires NodeOk(n) && index <= n.commitIndex
    ensures NodeOk(Snapshot(n, index, data)) && Onward(n, Snapshot(n, index, data))
  {
    hide Keeps, Shaped, Trim;
    ShapedKeeps(n.logs);
    TrimKeeps(n.logs, index);
    LastOn(n.logs, Trim(n.logs, index));
  }

  lemma BatchOk(n: Node, index: nat)
    requires NodeOk(n)
    ensures NodeOk(Applied(n, index)) && Onward(n, Applied(n, index))
  {
    hide Keeps;
    KeepsSelf(n.logs);
  }

  lemma RestartOk(n: Node)
    requires NodeOk(n) && n.stable.logs <= n.logs && n.stable.term == n.currentTerm
    ensures NodeOk(Restart(n)) && Onward(n, Restart(n))
  {
  }

  lemma MovedNode(c: Cluster, s: Step)
    requires Inv(c) && E.Inv(c) && D.Stored(c) && Enabled(c, s) && s.p < |c.nodes|
    ensures NodeOk(Do(c, s).nodes[s.p]) && Onward(c.nodes[s.p], Do(c, s).nodes[s.p])
  {
    hide NodeOk, Onward, E.Inv, E.NodeOk, StartElection, HandleVoteRequest, HandleVoteResponse, Start, HandleAppend,
         HandleAppendResponse, HandleSnap, HandleSnapResponse, CondInstallSnapshot, Snapshot, Applied, Restart, ReplicateOneRound,
         Elected, RequestShaped, Covers, RejectionInside, Shaped;
    var n := c.nodes[s.p];
    assert NodeOk(n);
    match s {
      case Elect(_) => ElectionOk(n);
      case OnAskVote(_, ask) => VoteOk(n, ask);
      case OnReplyVote(_, from, ask, vote) => CountOk(n, from, ask, vote);
      case Propose(_, cmd) => StartOk(n, cmd);
      case Replicate(_, _) => Unmoved(n);
      case OnAskAppend(p, a) =>
        assert MsgOk(c, AskAppend(p, a));
        AppendOk(n, a);
      case OnReplyAppend(_, from, a, r) =>
        assert MsgOk(c, ReplyAppend(from, a, r));
        InsideLog(c, a);
        ReplyOk(n, from, a, r);
      case OnAskSnap(p, a) =>
        assert MsgOk(c, AskSnap(p, a));
        SnapTaken(n, a);
      case OnReplySnap(_, from, a, r) =>
        assert MsgOk(c, ReplySnap(from, a, r));
        SnapCounted(n, from, a, r);
      case Install(_, msg) => InstallOk(n, msg);
      case TakeSnapshot(_, index) => TrimOk(n, index, ServiceState(n, index));
      case EndBatch(_, index) => BatchOk(n, index);
      case CrashRestart(p) =>
        E.GetNode(c, p);
        StoredTerm(c, p);
        RestartOk(n);
    }
  }

  lemma Unmoved(n: Node)
    requires NodeOk(n)
    ensures Onward(n, n)
  {
    KeepsSelf(n.logs);
  }

  lemma InsideLog(c: Cluster, a: AppendRequest)
    requires RequestOk(c, a)
    ensures 0 <= a.prevIndex && a.leader < |c.nodes|
    ensures Leads(c.nodes[a.leader], a.term) ==> a.prevIndex + |a.entries| <= LastIndex(c.nodes[a.leader])
  {
  }

  lemma StoredTerm(c: Cluster, p: nat)
    requires p < |c.nodes| && E.NodeOk(c, p)
    ensures c.nodes[p].stable.term == c.nodes[p].currentTerm
  {
  }

  // ---------- What is sent ----------

  lemma GenOk(n: Node, prev: int)
    requires Shaped(n.logs) && FirstIndex(n.logs) <= prev <= LastIndex(n)
    ensures RequestShaped(GenAppend(n, prev)) && Covers(n.logs, GenAppend(n, prev))
  {
    var a := GenAppend(n, prev);
    assert forall k :: 0 <= k < |a.entries| ==> a.entries[k] == n.logs[prev + 1 - FirstIndex(n.logs) + k];
  }

  lemma RejectOk(n: Node, a: AppendRequest)
    requires Shaped(n.logs) && RequestShaped(a)
    ensures RejectionInside(a, HandleAppend(n, a).1)
  {
    hide Splice, ScanBack;
    var prev, first := a.prevIndex, FirstIndex(n.logs);
    if a.term >= n.currentTerm && prev >= first && InLog(n.logs, prev) && !MatchLog(n.logs, a.prevTerm, prev) {
      var t := TermAt(n.logs, prev);
      var r := ScanBack(n.logs, prev - 1, t);
      assert first == 0 && r < 0 ==> prev == 0 || TermAt(n.logs, 0) == t;
    }
  }

  lemma LeaderElected(c: Cluster, p: nat)
    requires p < |c.nodes| && E.NodeOk(c, p) && c.nodes[p].role == Leader
    ensures c.nodes[p].me == p && Elected(c, c.nodes[p].currentTerm, p)
  {
  }

  lemma SendOk(c: Cluster, p: nat, peer: nat)
    requires p < |c.nodes| && NodeOk(c.nodes[p]) && E.NodeOk(c, p)
    ensures var round := ReplicateOneRound(c.nodes[p], peer);
            (round.Entries? ==> RequestOk(c, round.append)) && (round.Snap? ==> SnapOk(c, round.snap))
  {
    hide E.NodeOk, Elected, RequestShaped, Covers;
    var n := c.nodes[p];
    if n.role == Leader && peer < |n.nextIndex| {
      LeaderElected(c, p);
      if n.nextIndex[peer] - 1 >= FirstIndex(n.logs) {
        GenOk(n, n.nextIndex[peer] - 1);
      }
    }
  }

  lemma SentOk(c: Cluster, s: Step)
    requires Inv(c) && E.Inv(c) && Enabled(c, s) && s.p < |c.nodes| == |Do(c, s).nodes| && c.votes <= Do(c, s).votes
    requires Onward(c.nodes[s.p], Do(c, s).nodes[s.p])
    requires forall q :: 0 <= q < |c.nodes| && q != s.p ==> Do(c, s).nodes[q] == c.nodes[q]
    ensures forall m :: m in Do(c, s).net && m !in c.net ==> MsgOk(Do(c, s), m)
  {
    hide NodeOk, Onward, E.Inv, E.NodeOk, StartElection, HandleVoteRequest, HandleVoteResponse, Start, HandleAppend,
         HandleAppendResponse, HandleSnap, HandleSnapResponse, CondInstallSnapshot, Snapshot, Applied, Restart, ReplicateOneRound,
         RequestOk, SnapOk, RejectionInside, RequestShaped;
    var n, c' := c.nodes[s.p], Do(c, s);
    assert NodeOk(n);
    match s {
      case Replicate(p, peer) =>
        E.GetNode(c, p);
        SendOk(c, p, peer);
        match ReplicateOneRound(n, peer) {
          case Silent =>
          case Entries(a) => MsgStays(c, c', p, AskAppend(peer, a));
          case Snap(a) => MsgStays(c, c', p, AskSnap(peer, a));
        }
      case OnAskAppend(p, a) =>
        assert MsgOk(c, AskAppend(p, a));
        MsgStays(c, c', p, AskAppend(p, a));
        ShapeOf(n);
        RequestIs(c, a);
        RejectOk(n, a);
      case OnAskSnap(p, a) =>
        assert MsgOk(c, AskSnap(p, a));
        MsgStays(c, c', p, AskSnap(p, a));
      case _ =>
    }
  }

  lemma ShapeOf(n: Node)
    requires NodeOk(n)
    ensures Shaped(n.logs)
  {
  }

  lemma RequestIs(c: Cluster, a: AppendRequest)
    requires RequestOk(c, a)
    ensures RequestShaped(a)
  {
  }

  lemma StepOk(c: Cluster, s: Step)
    requires Inv(c) && E.Inv(c) && D.Stored(c) && Enabled(c, s) && s.p < |c.nodes|
    ensures Inv(Do(c, s)) && |Do(c, s).nodes| == |c.nodes|
    ensures Onward(c.nodes[s.p], Do(c, s).nodes[s.p])
    ensures forall q :: 0 <= q < |c.nodes| && q != s.p ==> Do(c, s).nodes[q] == c.nodes[q]
  {
    hide Do, Inv, E.Inv, D.Stored, Enabled, NodeOk, Onward, MsgOk, E.MsgOk;
    E.NewMessages(c, s);
    MovedNode(c, s);
    SentOk(c, s);
    Moved(c, Do(c, s), s.p);
  }

  // ---------- Runs ----------

  lemma InitOk(n: nat)
    ensures Inv(Init(n))
  {
  }

  lemma NextOk(n: nat, steps: seq<Step>)
    requires |steps| > 0 && IsRun(Init(n), steps) && Inv(Exec(Init(n), steps[..|steps| - 1]))
    ensures Inv(Exec(Init(n), steps))
    ensures var c, p := Exec(Init(n), steps[..|steps| - 1]), Last(steps).p;
            && p < |c.nodes| == |Exec(Init(n), steps).nodes|
            && Onward(c.nodes[p], Exec(Init(n), steps).nodes[p])
            && forall q :: 0 <= q < |c.nodes| && q != p ==> Exec(Init(n), steps).nodes[q] == c.nodes[q]
  {
    hide Do, Enabled, Inv, E.Inv, D.Stored, Onward;
    var init := steps[..|steps| - 1];
    E.RunOk(n, init);
    D.StoredIsPrefix(n, init);
    E.EnabledServer(Exec(Init(n), init), Last(steps));
    StepOk(Exec(Init(n), init), Last(steps));
  }

  lemma {:induction false} RunOk(n: nat, steps: seq<Step>)
    requires IsRun(Init(n), steps)
    ensures Inv(Exec(Init(n), steps)) && |Exec(Init(n), steps).nodes| == n
    decreases |steps|
  {
    hide Do, Enabled, Inv, Onward;
    if steps == [] {
      InitOk(n);
    } else {
      RunOk(n, steps[..|steps| - 1]);
      NextOk(n, steps);
    }
  }

  lemma GetNode(c: Cluster, p: nat)
    requires Inv(c) && p < |c.nodes|
    ensures NodeOk(c.nodes[p])
  {
  }

  lemma GetMsg(c: Cluster, m: Msg)
    requires Inv(c) && m in c.net
    ensures MsgOk(c, m)
  {
  }

  /** Whoever leads the term of a request now is the one who sent it. */
  lemma SentByLeader(c: Cluster, p: nat, term: nat, leader: nat)
    requires E.Inv(c) && p < |c.nodes| && Leads(c.nodes[p], term) && Elected(c, term, leader)
    ensures leader == p
  {
    hide E.Supporters;
    E.GetNode(c, p);
    assert E.NodeOk(c, p);
    E.OneMajority(c, term, p, leader);
  }

  // ---------- The theorems ----------

  /**
   * In every reachable state, whatever any crash lost, the log is contiguous and starts at or
   * below the commit index, and a leader's indices are ones the source may slice and search with.
   */
  lemma IndicesLegal(n: nat, steps: seq<Step>, p: nat, q: nat)
    requires p < n && q < n && IsRun(Init(n), steps)
    ensures |Exec(Init(n), steps).nodes| == n
    ensures var a := Exec(Init(n), steps).nodes[p];
            && Contiguous(a.logs) && FirstIndex(a.logs) <= a.commitIndex
            && |a.nextIndex| == |a.matchIndex| == n
            && (a.role == Leader ==> 0 <= a.nextIndex[q] <= LastIndex(a) + 1 && a.matchIndex[q] <= LastIndex(a))
  {
    hide Exec, IsRun, Inv, E.Inv;
    var c := Exec(Init(n), steps);
    RunOk(n, steps);
    E.RunOk(n, steps);
    GetNode(c, p);
    E.GetNode(c, p);
  }

  /** A late reply never sends the leader's conflict search outside its log. */
  lemma RepliesLegal(n: nat, steps: seq<Step>, p: nat, from: nat, a: AppendRequest, r: AppendResponse)
    requires p < n && IsRun(Init(n), steps) && ReplyAppend(from, a, r) in Exec(Init(n), steps).net
    requires Leads(Exec(Init(n), steps).nodes[p], a.term)
    ensures var l := Exec(Init(n), steps).nodes[p];
            && a.leader == p && 0 <= a.prevIndex && a.prevIndex + |a.entries| <= LastIndex(l)
            && (!r.success && r.term == a.term ==> 0 <= r.conflictIndex <= a.prevIndex)
  {
    hide Exec, IsRun, Inv, E.Inv, Elected;
    var c := Exec(Init(n), steps);
    RunOk(n, steps);
    E.RunOk(n, steps);
    GetMsg(c, ReplyAppend(from, a, r));
    SentByLeader(c, p, a.term, a.leader);
  }

  /** What became of a server from one moment of a run to a later one. */
  lemma {:induction false} RunOnward(n: nat, steps: seq<Step>, more: seq<Step>, p: nat)
    requires p < n && IsRun(Init(n), steps + more)
    ensures |Exec(Init(n), steps).nodes| == |Exec(Init(n), steps + more).nodes| == n
    ensures var a, b := Exec(Init(n), steps).nodes[p], Exec(Init(n), steps + more).nodes[p];
            && b.currentTerm >= a.currentTerm
            && (a.role == Leader && b.currentTerm == a.currentTerm ==>
                  b.role != Candidate && (b.role == Leader ==> Keeps(a.logs, b.logs)))
    decreases |more|
  {
    hide Do, Enabled, Inv, Keeps;
    if more == [] {
      assert steps + more == steps;
      RunOk(n, steps);
      GetNode(Exec(Init(n), steps), p);
      ShapedKeeps(Exec(Init(n), steps).nodes[p].logs);
    } else {
      var all, init := steps + more, more[..|more| - 1];
      assert all[..|all| - 1] == steps + init;
      RunOnward(n, steps, init, p);
      RunOk(n, steps + init);
      NextOk(n, all);
      var a, m, b := Exec(Init(n), steps).nodes[p], Exec(Init(n), steps + init).nodes[p], Exec(Init(n), all).nodes[p];
      if m.role == Leader && b.role == Leader && Last(all).p == p && Keeps(a.logs, m.logs) {
        KeepsOn(a.logs, m.logs, b.logs);
      }
    }
  }

  /**
   * A leader never loses or changes an entry during its term, whatever it compacts or installs
   * and whatever any crash loses: at a later moment of the term its log starts and ends no
   * earlier and has the same entries, and it is an extension if nothing was compacted between.
   */
  lemma LeaderAppendOnly(n: nat, steps: seq<Step>, more: seq<Step>, p: nat)
    requires p < n && IsRun(Init(n), steps + more)
    requires var a, b := Exec(Init(n), steps).nodes[p], Exec(Init(n), steps + more).nodes[p];
             a.role == Leader && b.role == Leader && a.currentTerm == b.currentTerm
    ensures Keeps(Exec(Init(n), steps).nodes[p].logs, Exec(Init(n), steps + more).nodes[p].logs)
  {
    hide Exec, IsRun, Keeps;
    RunOnward(n, steps, more, p);
  }

  /**
   * Every append request ever sent was, at some moment k of the run, all that its sender, leading
   * the request's term, had after the probed index.  It is numbered from that index on, and as
   * long as its sender leads the term the log has its entries, as far as it is not compacted.
   */
  lemma RequestsCarrySuffix(n: nat, steps: seq<Step>, to: nat, a: AppendRequest) returns (k: nat)
    requires IsRun(Init(n), steps) && AskAppend(to, a) in Exec(Init(n), steps).net
    ensures a.leader < n && k <= |steps| && |Exec(Init(n), steps[..k]).nodes| == |Exec(Init(n), steps).nodes| == n
    ensures var l := Exec(Init(n), steps[..k]).nodes[a.leader]; Leads(l, a.term) && a == GenAppend(l, a.prevIndex)
    ensures RequestShaped(a)
    ensures var l := Exec(Init(n), steps).nodes[a.leader]; Leads(l, a.term) ==> Covers(l.logs, a)
  {
    hide Exec, IsRun, Inv, E.Inv, RequestShaped, Covers, Elected;
    k := SentAt(n, steps, to, a);
    RunOk(n, steps);
    GetMsg(Exec(Init(n), steps), AskAppend(to, a));
  }

  lemma {:induction false} SentAt(n: nat, steps: seq<Step>, to: nat, a: AppendRequest) returns (k: nat)
    requires IsRun(Init(n), steps) && AskAppend(to, a) in Exec(Init(n), steps).net
    ensures a.leader < n && k <= |steps| && |Exec(Init(n), steps[..k]).nodes| == n
    ensures var l := Exec(Init(n), steps[..k]).nodes[a.leader]; Leads(l, a.term) && a == GenAppend(l, a.prevIndex)
    decreases |steps|
  {
    hide Do, Enabled, E.Inv;
    var init := steps[..|steps| - 1];
    var c := Exec(Init(n), init);
    if AskAppend(to, a) in c.net {
      k := SentAt(n, init, to, a);
      assert init[..k] == steps[..k];
    } else {
      k := |steps| - 1;
      E.RunOk(n, init);
      E.EnabledServer(c, Last(steps));
      JustSent(c, Last(steps), to, a);
    }
  }

  lemma JustSent(c: Cluster, s: Step, to: nat, a: AppendRequest)
    requires E.Inv(c) && s.p < |c.nodes| && AskAppend(to, a) !in c.net && AskAppend(to, a) in Do(c, s).net
    ensures a.leader == s.p && Leads(c.nodes[s.p], a.term) && a == GenAppend(c.nodes[s.p], a.prevIndex)
  {
    hide E.Inv, HandleAppend, HandleVoteRequest, HandleSnap, StartElection, TermAt, Drop;
    E.GetNode(c, s.p);
  }
}
