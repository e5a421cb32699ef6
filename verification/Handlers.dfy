/**
 * What each handler of lab2/lab2C+D/raft.go and raftwork.go does to one server, as functions
 * on the server's whole state.  The class `RaftPeer` is proved to compute exactly these, and
 * the cluster is built from them.
 */
module Handlers {
  import opened Types
  import opened LogStore
  import opened Rpc
  import opened Median

  /** What SaveRaftState keeps on stable storage. */
  datatype Stable = Stable(term: nat, votedFor: int, logs: Log)

  /**
   * One server.  `grantedVotes` and `answered` belong to the current election: the counter its
   * goroutines share, and the peers whose goroutine has finished.  `pending` are snapshots that
   * goroutines are still trying to hand to the apply channel.  `snapshot` is on stable storage.
   */
  datatype Node = Node(
    me: nat,
    peers: nat,
    currentTerm: nat,
    votedFor: int,
    logs: Log,
    commitIndex: nat,
    lastApplied: nat,
    nextIndex: seq<int>,
    matchIndex: seq<nat>,
    role: Role,
    grantedVotes: nat,
    answered: set<nat>,
    pending: set<SnapshotMsg>,
    stable: Stable,
    snapshot: seq<Command>
  )

  /** What one call of replicateOneRound sends. */
  datatype Round = Silent | Entries(append: AppendRequest) | Snap(snap: SnapRequest)

  function Boot(me: nat, peers: nat): Node {
    Node(me, peers, 0, -1, [Placeholder], 0, 0, seq(peers, _ => 1), seq(peers, _ => 0),
         Follower, 0, {}, {}, Stable(0, -1, [Placeholder]), [])
  }

  function Persist(n: Node): Node {
    n.(stable := Stable(n.currentTerm, n.votedFor, n.logs))
  }

  function LastIndex(n: Node): nat {
    LastLog(n.logs).index
  }

  function ChangeState(n: Node, role: Role): Node {
    if n.role == role then n
    else if role != Leader then n.(role := role)
    else n.(role := Leader,
            matchIndex := seq(n.peers, _ => 0),
            nextIndex := seq(n.peers, _ => LastIndex(n) + 1))
  }

  /** A later term was seen: forget the vote. */
  function Adopt(n: Node, term: nat): Node {
    if term > n.currentTerm then n.(currentTerm := term, votedFor := -1) else n
  }

  // ---------- Elections ----------

  function StartElection(n: Node): (Node, VoteRequest) {
    var n' := ChangeState(n, Candidate).(currentTerm := n.currentTerm + 1, votedFor := n.me,
                                         grantedVotes := 1, answered := {});
    (Persist(n'), VoteRequest(n'.currentTerm, n.me, LastIndex(n), LastLog(n.logs).term))
  }

  function HandleVoteRequest(n: Node, req: VoteRequest): (Node, VoteResponse) {
    if req.term < n.currentTerm || (req.term == n.currentTerm && n.votedFor != -1 && n.votedFor != req.cand) then
      (Persist(n), VoteResponse(n.currentTerm, false))
    else
      var n1 := if req.term > n.currentTerm then Adopt(ChangeState(n, Follower), req.term) else n;
      if !IsLogUpToDate(n1.logs, req.lastTerm, req.lastIndex) then
        (Persist(n1), VoteResponse(n1.currentTerm, false))
      else
        (Persist(n1.(votedFor := req.cand)), VoteResponse(n1.currentTerm, true))
  }

  function HandleVoteResponse(n: Node, from: nat, req: VoteRequest, resp: VoteResponse): Node {
    if n.currentTerm != req.term || n.role != Candidate then n
    else
      var n1 := n.(answered := n.answered + {from});
      if resp.granted then
        var n2 := n1.(grantedVotes := n.grantedVotes + 1);
        if n2.grantedVotes > n.peers / 2 then ChangeState(n2, Leader) else n2
      else if resp.term > n.currentTerm then
        Persist(Adopt(ChangeState(n1, Follower), resp.term))
      else n1
  }

  // ---------- Replication ----------

  function Start(n: Node, cmd: Command): Node {
    if n.role != Leader || n.me >= |n.matchIndex| || n.me >= |n.nextIndex| then n
    else
      var index := LastIndex(n) + 1;
      n.(logs := n.logs + [Entry(index, n.currentTerm, cmd)],
         matchIndex := n.matchIndex[n.me := index],
         nextIndex := n.nextIndex[n.me := index + 1])
  }

  function GenAppend(n: Node, prev: int): AppendRequest {
    var first := FirstIndex(n.logs);
    AppendRequest(n.currentTerm, n.me, prev, TermAt(n.logs, prev), Drop(n.logs, prev + 1 - first), n.commitIndex)
  }

  function GenSnap(n: Node): SnapRequest {
    SnapRequest(n.currentTerm, n.me, FirstIndex(n.logs), n.logs[0].term, n.snapshot)
  }

  function ReplicateOneRound(n: Node, peer: nat): Round {
    if n.role != Leader || peer >= |n.nextIndex| then Silent
    else
      var prev := n.nextIndex[peer] - 1;
      if prev < FirstIndex(n.logs) then Snap(GenSnap(n)) else Entries(GenAppend(n, prev))
  }

  function FollowerCommit(n: Node, leaderCommit: nat): Node {
    var newCommit := Min(leaderCommit, LastIndex(n));
    if newCommit > n.commitIndex then n.(commitIndex := newCommit) else n
  }

  function Conflict(n: Node, prev: int): AppendResponse {
    if LastIndex(n) < prev || !InLog(n.logs, prev) then
      AppendResponse(n.currentTerm, false, LastIndex(n) + 1, -1)
    else
      var term := TermAt(n.logs, prev);
      AppendResponse(n.currentTerm, false, ScanBack(n.logs, prev - 1, term), term)
  }

  function HandleAppend(n: Node, req: AppendRequest): (Node, AppendResponse) {
    if req.term < n.currentTerm then (Persist(n), AppendResponse(n.currentTerm, false, 0, 0))
    else
      var n1 := ChangeState(Adopt(n, req.term), Follower);
      if req.prevIndex < FirstIndex(n.logs) then
        (Persist(n1), AppendResponse(n1.currentTerm, false, 0, 0))
      else if !MatchLog(n.logs, req.prevTerm, req.prevIndex) then
        (Persist(n1), Conflict(n1, req.prevIndex))
      else
        var n2 := FollowerCommit(n1.(logs := Splice(n.logs, req.entries)), req.leaderCommit);
        (Persist(n2), AppendResponse(n2.currentTerm, true, 0, 0))
  }

  function LeaderCommit(n: Node): Node {
    if |n.matchIndex| == 0 then n
    else
      var newCommit := MedianOf(n.matchIndex);
      if newCommit > n.commitIndex && MatchLog(n.logs, n.currentTerm, newCommit)
      then n.(commitIndex := newCommit) else n
  }

  /** Where the leader tries next after a rejection. */
  function NextAfter(logs: Log, req: AppendRequest, resp: AppendResponse): int {
    if resp.conflictTerm == -1 then resp.conflictIndex
    else
      var i := FindTerm(logs, req.prevIndex, resp.conflictTerm);
      if i >= FirstIndex(logs) then i + 1 else resp.conflictIndex
  }

  function HandleAppendResponse(n: Node, peer: nat, req: AppendRequest, resp: AppendResponse): Node {
    if n.role != Leader || n.currentTerm != req.term || peer >= |n.matchIndex| || peer >= |n.nextIndex| then n
    else if resp.success then
      var m := req.prevIndex + |req.entries|;
      if m < 0 then n
      else LeaderCommit(n.(matchIndex := n.matchIndex[peer := m], nextIndex := n.nextIndex[peer := m + 1]))
    else if resp.term > n.currentTerm then
      Persist(Adopt(ChangeState(n, Follower), resp.term))
    else if resp.term == n.currentTerm then
      n.(nextIndex := n.nextIndex[peer := NextAfter(n.logs, req, resp)])
    else n
  }

  // ---------- Snapshots ----------

  function HandleSnap(n: Node, req: SnapRequest): (Node, SnapResponse) {
    var resp := SnapResponse(n.currentTerm);
    if req.term < n.currentTerm then (n, resp)
    else
      var n1 := if req.term > n.currentTerm then Persist(Adopt(n, req.term)) else n;
      var n2 := ChangeState(n1, Follower);
      if req.lastIndex <= n.commitIndex then (n2, resp)
      else (n2.(pending := n2.pending + {SnapshotMsg(req.lastTerm, req.lastIndex, req.data)}), resp)
  }

  function HandleSnapResponse(n: Node, peer: nat, req: SnapRequest, resp: SnapResponse): Node {
    if n.role != Leader || n.currentTerm != req.term || peer >= |n.matchIndex| || peer >= |n.nextIndex| then n
    else if resp.term > n.currentTerm then
      Persist(Adopt(ChangeState(n, Follower), resp.term))
    else
      n.(matchIndex := n.matchIndex[peer := req.lastIndex], nextIndex := n.nextIndex[peer := req.lastIndex + 1])
  }

  function CondInstallSnapshot(n: Node, s: SnapshotMsg): (Node, bool) {
    if s.index <= n.commitIndex then (n, false)
    else
      (Persist(n.(logs := InstalledLog(n.logs, s.term, s.index), lastApplied := s.index, commitIndex := s.index))
         .(snapshot := s.data), true)
  }

  function Snapshot(n: Node, index: nat, data: seq<Command>): Node {
    if index <= FirstIndex(n.logs) then n
    else Persist(n.(logs := Trim(n.logs, index))).(snapshot := data)
  }

  // ---------- Applying and restarting ----------

  /** The end of one applier batch that went up to `index`. */
  function Applied(n: Node, index: nat): Node {
    n.(lastApplied := Max(n.lastApplied, index))
  }

  /** Make after a crash: everything but stable storage is lost. */
  function Restart(n: Node): Node {
    var first := FirstIndex(n.stable.logs);
    var next := LastLog(n.stable.logs).index + 1;
    Node(n.me, n.peers, n.stable.term, n.stable.votedFor, n.stable.logs, first, first,
         seq(n.peers, _ => next), seq(n.peers, _ => 0), Follower, 0, {}, {}, n.stable, n.snapshot)
  }
}
