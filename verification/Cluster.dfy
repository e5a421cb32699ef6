/**
 * N servers and a network.  Each step is one critical section of one server.  Every message
 * ever sent stays in `net`, so it can be lost (never delivered), delayed, reordered or
 * delivered again; only a vote reply is consumed at most once per election, as in the source,
 * where one goroutine per peer waits for it.
 */
module Cluster {
  import opened Types
  import opened LogStore
  import opened Rpc
  import opened Handlers

  datatype Msg =
    | AskVote(ask: VoteRequest)
    | ReplyVote(from: nat, ask: VoteRequest, vote: VoteResponse)
    | AskAppend(to: nat, append: AppendRequest)
    | ReplyAppend(from: nat, append: AppendRequest, appended: AppendResponse)
    | AskSnap(to: nat, snap: SnapRequest)
    | ReplySnap(from: nat, snap: SnapRequest, snapped: SnapResponse)

  /** `votes` records every vote ever cast; no step reads it. */
  datatype Cluster = Cluster(nodes: seq<Node>, net: set<Msg>, votes: set<Vote>)

  datatype Step =
    | Elect(p: nat)
    | OnAskVote(p: nat, ask: VoteRequest)
    | OnReplyVote(p: nat, from: nat, ask: VoteRequest, vote: VoteResponse)
    | Propose(p: nat, cmd: Command)
    | Replicate(p: nat, peer: nat)
    | OnAskAppend(p: nat, append: AppendRequest)
    | OnReplyAppend(p: nat, from: nat, append: AppendRequest, appended: AppendResponse)
    | OnAskSnap(p: nat, snap: SnapRequest)
    | OnReplySnap(p: nat, from: nat, snap: SnapRequest, snapped: SnapResponse)
    | Install(p: nat, msg: SnapshotMsg)
    | TakeSnapshot(p: nat, index: nat)
    | EndBatch(p: nat, index: nat)
    | CrashRestart(p: nat)

  function Init(n: nat): Cluster {
    Cluster(seq(n, i requires 0 <= i < n => Boot(i, n)), {}, {})
  }

  predicate Enabled(c: Cluster, s: Step) {
    && s.p < |c.nodes|
    && match s {
         case Elect(_) => true
         case OnAskVote(p, ask) => AskVote(ask) in c.net && ask.cand != p
         case OnReplyVote(p, from, ask, vote) =>
           ReplyVote(from, ask, vote) in c.net && ask.cand == p &&
           (c.nodes[p].currentTerm == ask.term ==> from !in c.nodes[p].answered)
         case Propose(_, _) => true
         case Replicate(p, peer) => peer < |c.nodes| && peer != p
         case OnAskAppend(p, append) => AskAppend(p, append) in c.net
         case OnReplyAppend(p, from, append, appended) => ReplyAppend(from, append, appended) in c.net && append.leader == p
         case OnAskSnap(p, snap) => AskSnap(p, snap) in c.net
         case OnReplySnap(p, from, snap, snapped) => ReplySnap(from, snap, snapped) in c.net && snap.leader == p
         case Install(p, msg) => msg in c.nodes[p].pending
         case TakeSnapshot(p, index) => index <= c.nodes[p].commitIndex
         case EndBatch(p, index) => index <= c.nodes[p].commitIndex
         case CrashRestart(_) => true
       }
  }

  /** The service state at `index`: the stored snapshot followed by the entries up to `index`. */
  function ServiceState(n: Node, index: nat): seq<Command> {
    var k := index + 1 - FirstIndex(n.logs);
    if 1 <= k <= |n.logs| then n.snapshot + Commands(n.logs[1..k]) else n.snapshot
  }

  function Put(c: Cluster, p: nat, n: Node): Cluster
    requires p < |c.nodes|
  {
    c.(nodes := c.nodes[p := n])
  }

  function Do(c: Cluster, s: Step): Cluster
    requires s.p < |c.nodes|
  {
    var n := c.nodes[s.p];
    match s {
      case Elect(p) =>
        var (n', ask) := StartElection(n);
        Put(c, p, n').(net := c.net + {AskVote(ask)}, votes := c.votes + {Vote(p, ask.term, p)})
      case OnAskVote(p, ask) =>
        var (n', vote) := HandleVoteRequest(n, ask);
        Put(c, p, n').(
          net := c.net + {ReplyVote(p, ask, vote)},
          votes := if vote.granted then c.votes + {Vote(p, ask.term, ask.cand)} else c.votes)
      case OnReplyVote(p, from, ask, vote) =>
        Put(c, p, HandleVoteResponse(n, from, ask, vote))
      case Propose(p, cmd) =>
        Put(c, p, Start(n, cmd))
      case Replicate(p, peer) =>
        (match ReplicateOneRound(n, peer)
         case Silent => c
         case Entries(append) => c.(net := c.net + {AskAppend(peer, append)})
         case Snap(snap) => c.(net := c.net + {AskSnap(peer, snap)}))
      case OnAskAppend(p, append) =>
        var (n', appended) := HandleAppend(n, append);
        Put(c, p, n').(net := c.net + {ReplyAppend(p, append, appended)})
      case OnReplyAppend(p, from, append, appended) =>
        Put(c, p, HandleAppendResponse(n, from, append, appended))
      case OnAskSnap(p, snap) =>
        var (n', snapped) := HandleSnap(n, snap);
        Put(c, p, n').(net := c.net + {ReplySnap(p, snap, snapped)})
      case OnReplySnap(p, from, snap, snapped) =>
        Put(c, p, HandleSnapResponse(n, from, snap, snapped))
      case Install(p, msg) =>
        Put(c, p, CondInstallSnapshot(n, msg).0)
      case TakeSnapshot(p, index) =>
        Put(c, p, Snapshot(n, index, ServiceState(n, index)))
      case EndBatch(p, index) =>
        Put(c, p, Applied(n, index))
      case CrashRestart(p) =>
        Put(c, p, Restart(n))
    }
  }

  function Exec(c: Cluster, steps: seq<Step>): (c': Cluster)
    ensures |c'.nodes| == |c.nodes|
    decreases |steps|
  {
    if steps == [] then c
    else
      var before := Exec(c, steps[..|steps| - 1]);
      if Last(steps).p < |c.nodes| then Do(before, Last(steps)) else before
  }

  /** Every step of the run is enabled when it is taken. */
  predicate IsRun(c: Cluster, steps: seq<Step>)
    decreases |steps|
  {
    steps == [] ||
    (IsRun(c, steps[..|steps| - 1]) && Enabled(Exec(c, steps[..|steps| - 1]), Last(steps)))
  }

  /** In n's term, m's log runs past n's commit index and ends in that term. */
  predicate Backs(m: Node, n: Node) {
    m.currentTerm == n.currentTerm && LastLog(m.logs).term == n.currentTerm && LastIndex(m) >= n.commitIndex
  }

  function Backers(c: Cluster, p: nat): set<nat>
    requires p < |c.nodes|
  {
    set q | 0 <= q < |c.nodes| && q != p && Backs(c.nodes[q], c.nodes[p])
  }

  /**
   * The crash forgets nothing committed, or so many others hold what it forgets that the rest
   * is no majority.  Entries that are not committed may be forgotten freely.
   */
  predicate Durable(c: Cluster, s: Step) {
    s.CrashRestart? && s.p < |c.nodes| ==>
      var n := c.nodes[s.p];
      n.commitIndex <= LastLog(n.stable.logs).index || 2 * |Backers(c, s.p)| >= |c.nodes|
  }

  /** A run in which every crash is durable. */
  predicate IsDurableRun(c: Cluster, steps: seq<Step>)
    decreases |steps|
  {
    steps == [] ||
    (IsDurableRun(c, steps[..|steps| - 1]) && Durable(Exec(c, steps[..|steps| - 1]), Last(steps)))
  }

  lemma DoGrows(c: Cluster, s: Step)
    requires s.p < |c.nodes|
    ensures c.net <= Do(c, s).net && c.votes <= Do(c, s).votes
  {
  }

  /** Messages and votes are never forgotten along a run. */
  lemma {:induction false} RunGrows(c: Cluster, steps: seq<Step>, more: seq<Step>)
    requires IsRun(c, steps + more)
    ensures IsRun(c, steps)
    ensures Exec(c, steps).net <= Exec(c, steps + more).net
    ensures Exec(c, steps).votes <= Exec(c, steps + more).votes
    decreases |more|
  {
    hide Do, Enabled;
    if more == [] {
      assert steps + more == steps;
    } else {
      var init := more[..|more| - 1];
      assert (steps + more)[..|steps + more| - 1] == steps + init;
      RunGrows(c, steps, init);
      if Last(more).p < |c.nodes| {
        DoGrows(Exec(c, steps + init), Last(more));
      }
    }
  }
}
