/**
 * The cluster runs the full-log protocol: every step of the compacted servers is a step of
 * the full-log servers, or none, and what the network carries is what the protocol sent.
 */
module Refinement {
  import opened Types
  import opened LogStore
  import opened Rpc
  import opened Median
  import opened Handlers
  import opened Cluster
  import A = Replication
  import S = ReplicationSteps
  import E = Election

  // ---------- The relation ----------

  /** The snapshot message summarises the prefix `m.log`. */
  predicate SnapIs(m: A.SnapMsg, term: nat, index: nat, data: seq<Command>) {
    |m.log| == index + 1 && m.log[index].term == term && data == Commands(m.log[1..])
  }

  predicate AppendIs(m: A.AppendMsg, a: AppendRequest) {
    && m.term == a.term && 0 <= a.prevIndex < |m.log|
    && a.prevTerm == m.log[a.prevIndex].term
    && a.entries == m.log[a.prevIndex + 1..]
    && a.leaderCommit == m.commit
  }

  ghost predicate PendingRel(st: A.State, term: nat, s: SnapshotMsg) {
    exists m :: m in st.snaps && m.term <= term && SnapIs(m, s.term, s.index, s.data)
  }

  /** What the leader knows of one peer is sound, and safe to index with. */
  ghost predicate PeerRel(st: A.State, n: Node, s: A.Server, q: nat)
    requires q < |n.nextIndex| && q < |n.matchIndex|
  {
    && 0 <= n.nextIndex[q] <= |s.log|
    && n.matchIndex[q] < |s.log|
    && forall i :: s.commit < i <= n.matchIndex[q] && s.log[i].term == s.term ==> A.Ack(q, s.term, i) in st.acks
  }

  ghost predicate NodeRel(st: A.State, n: Node, s: A.Server) {
    var first := FirstIndex(n.logs);
    && s.term == n.currentTerm && s.role == n.role
    && first < |s.log| && n.logs == Compact(s.log, first)
    && n.commitIndex == s.commit && first <= s.commit
    && (s.good < |s.log| ==> first == s.commit)
    && n.snapshot == Commands(s.log[1..first + 1])
    && (forall m :: m in n.pending ==> PendingRel(st, s.term, m))
    && (n.role == Leader ==> forall q :: 0 <= q < |n.nextIndex| && q < |n.matchIndex| ==> PeerRel(st, n, s, q))
  }

  /** Storage holds a prefix of the log; only a leader's log runs past it, with entries of its term. */
  predicate LagOk(n: Node) {
    && n.stable.logs <= n.logs
    && (n.stable.logs != n.logs ==>
          n.role == Leader && forall j :: |n.stable.logs| <= j < |n.logs| ==> n.logs[j].term == n.currentTerm)
  }

  predicate LagsOk(c: Cluster) {
    forall p :: 0 <= p < |c.nodes| ==> LagOk(c.nodes[p])
  }

  ghost predicate AppendRel(st: A.State, a: AppendRequest) {
    exists m :: m in st.appends && AppendIs(m, a)
  }

  /** Entry by entry: acknowledged by `from`, or already committed by this term's leader. */
  ghost predicate Acked(st: A.State, from: nat, t: nat, m: int) {
    forall i: nat :: i <= m && A.OwnEntry(st, t, i) ==>
      A.Ack(from, t, i) in st.acks || exists e :: e in st.commits && e.term == t && e.index >= i
  }

  ghost predicate LeaderCovers(st: A.State, t: nat, k: nat) {
    && t in st.lead && st.lead[t] < |st.servers|
    && var s := st.servers[st.lead[t]];
       s.term == t && s.role == Leader ==> k <= s.commit
  }

  ghost predicate SnapRel(st: A.State, a: SnapRequest) {
    && (exists m :: m in st.snaps && m.term == a.term && SnapIs(m, a.lastTerm, a.lastIndex, a.data))
    && LeaderCovers(st, a.term, a.lastIndex)
  }

  ghost predicate MsgRel(st: A.State, m: Msg) {
    match m
    case AskVote(ask) =>
      var b := A.Ballot(ask.term, ask.cand);
      b in st.reqs && |st.reqs[b].log| == ask.lastIndex + 1 && Last(st.reqs[b].log).term == ask.lastTerm
    case ReplyVote(_, _, _) => true
    case AskAppend(_, a) => AppendRel(st, a)
    case ReplyAppend(from, a, r) =>
      && AppendRel(st, a)
      && (r.success ==> Acked(st, from, a.term, a.prevIndex + |a.entries|))
      && (!r.success && r.term == a.term ==> 0 <= r.conflictIndex <= a.prevIndex)
    case AskSnap(to, a) => SnapRel(st, a) && st.lead[a.term] != to
    case ReplySnap(_, a, _) => SnapRel(st, a)
  }

  ghost predicate NetRel(c: Cluster, st: A.State) {
    forall m :: m in c.net ==> MsgRel(st, m)
  }

  ghost predicate NodesRel(c: Cluster, st: A.State) {
    |st.servers| == |c.nodes| && forall p :: 0 <= p < |c.nodes| ==> NodeRel(st, c.nodes[p], st.servers[p])
  }

  ghost predicate Rel(c: Cluster, st: A.State) {
    NodesRel(c, st) && NetRel(c, st) && st.votes == c.votes
  }

  /** Growth that also keeps a leader's commit index, as long as it leads. */
  ghost predicate Onward(st: A.State, st': A.State) {
    && A.Grows(st, st')
    && forall v :: 0 <= v < |st.servers| && st'.servers[v].role == Leader ==>
         || (st.servers[v].role == Leader && st.servers[v].term == st'.servers[v].term && st.servers[v].commit <= st'.servers[v].commit)
         || st'.servers[v].term !in st.lead
  }

  // ---------- Growth keeps the relation ----------

  lemma NodeRelGrows(st: A.State, st': A.State, n: Node, s: A.Server)
    requires A.Grows(st, st') && NodeRel(st, n, s)
    ensures NodeRel(st', n, s)
  {
    forall m | m in n.pending
      ensures PendingRel(st', s.term, m)
    {
      assert PendingRel(st, s.term, m);
    }
    if n.role == Leader {
      forall q | 0 <= q < |n.nextIndex| && q < |n.matchIndex|
        ensures PeerRel(st', n, s, q)
      {
        assert PeerRel(st, n, s, q);
      }
    }
  }

  lemma AckedGrows(st: A.State, st': A.State, from: nat, t: nat, m: int)
    requires A.Grows(st, st') && Acked(st, from, t, m) && t in st.llog && m < |st.llog[t]|
    ensures Acked(st', from, t, m)
  {
    assert A.Extends(st, st', t);
    forall i: nat | i <= m && A.OwnEntry(st', t, i)
      ensures A.Ack(from, t, i) in st'.acks || exists e :: e in st'.commits && e.term == t && e.index >= i
    {
      assert A.OwnEntry(st, t, i);
    }
  }

  lemma MsgRelGrows(st: A.State, st': A.State, m: Msg)
    requires Onward(st, st') && A.InvMsgs(st) && A.InvLeaders(st) && MsgRel(st, m)
    ensures MsgRel(st', m)
  {
    match m
    case ReplyAppend(from, a, r) =>
      if r.success {
        var w :| w in st.appends && AppendIs(w, a);
        assert A.AppendOk(st, w);
        AckedGrows(st, st', from, a.term, a.prevIndex + |a.entries|);
      }
    case AskSnap(to, a) => SnapRelGrows(st, st', a);
    case ReplySnap(_, a, _) => SnapRelGrows(st, st', a);
    case _ =>
  }

  lemma SnapRelGrows(st: A.State, st': A.State, a: SnapRequest)
    requires Onward(st, st') && A.InvLeaders(st) && SnapRel(st, a)
    ensures SnapRel(st', a)
  {
    var w :| w in st.snaps && w.term == a.term && SnapIs(w, a.lastTerm, a.lastIndex, a.data);
    assert w in st'.snaps;
  }

  /** Server p moved and messages were added. */
  lemma Restore(c: Cluster, c': Cluster, st: A.State, st': A.State, p: nat)
    requires Rel(c, st) && A.Inv(st) && Onward(st, st')
    requires p < |c.nodes| && |c'.nodes| == |c.nodes|
    requires forall q :: 0 <= q < |c.nodes| && q != p ==> c'.nodes[q] == c.nodes[q] && st'.servers[q] == st.servers[q]
    requires NodeRel(st', c'.nodes[p], st'.servers[p]) && st'.votes == c'.votes
    requires forall m :: m in c'.net && m !in c.net ==> MsgRel(st', m)
    ensures Rel(c', st')
  {
    hide A.Inv, A.Grows, NodeRel, MsgRel;
    SameCount(st, st');
    forall q | 0 <= q < |c.nodes|
      ensures NodeRel(st', c'.nodes[q], st'.servers[q])
    {
      if q != p {
        NodeRelGrows(st, st', c.nodes[q], st.servers[q]);
      }
    }
    forall m | m in c'.net
      ensures MsgRel(st', m)
    {
      if m in c.net {
        MsgParts(st);
        MsgRelGrows(st, st', m);
      }
    }
  }

  lemma MsgParts(st: A.State)
    requires A.Inv(st)
    ensures A.InvMsgs(st) && A.InvLeaders(st)
  {
  }

  lemma SameCount(st: A.State, st': A.State)
    requires A.Grows(st, st')
    ensures |st'.servers| == |st.servers|
  {
  }

  // ---------- Reading a compacted node ----------

  lemma NodeFacts(st: A.State, n: Node, s: A.Server)
    requires NodeRel(st, n, s) && A.ServerOk(st, s)
    ensures Numbered(s.log) && Contiguous(n.logs)
    ensures LastIndex(n) == |s.log| - 1 && LastLog(n.logs).term == Last(s.log).term
    ensures |n.logs| == |s.log| - FirstIndex(n.logs)
    ensures forall i :: FirstIndex(n.logs) <= i < |s.log| ==> TermAt(n.logs, i) == s.log[i].term
  {
    CompactLookup(s.log, FirstIndex(n.logs));
  }

  lemma Parts(c: Cluster, st: A.State, p: nat)
    requires Rel(c, st) && A.Inv(st) && E.Inv(c) && p < |c.nodes|
    ensures NodeRel(st, c.nodes[p], st.servers[p]) && E.NodeOk(c, p)
    ensures A.ServerOk(st, st.servers[p]) && A.LeaderOk(st, p) && A.CandidateOk(st, p)
    ensures NodeFactsHold(st, c.nodes[p], st.servers[p])
  {
    hide A.InvLogs, A.InvMsgs, A.InvVotes, A.InvCarried, A.InvEvents, A.InvAcks, NetRel;
    assert NodeRel(st, c.nodes[p], st.servers[p]) && A.ServerOk(st, st.servers[p]);
    assert A.LeaderOk(st, p) && A.CandidateOk(st, p);
    NodeFacts(st, c.nodes[p], st.servers[p]);
  }

  ghost predicate NodeFactsHold(st: A.State, n: Node, s: A.Server) {
    && Numbered(s.log) && Contiguous(n.logs)
    && LastIndex(n) == |s.log| - 1 && |s.log| > 0 && LastLog(n.logs).term == Last(s.log).term
    && |n.logs| == |s.log| - FirstIndex(n.logs)
    && (forall i :: FirstIndex(n.logs) <= i < |s.log| ==> TermAt(n.logs, i) == s.log[i].term)
  }

  /** A step of a server that only counters, stable storage or pending snapshots could show. */
  lemma NodeSame(st: A.State, n: Node, n': Node, s: A.Server)
    requires NodeRel(st, n, s)
    requires n'.currentTerm == n.currentTerm && n'.role == n.role && n'.logs == n.logs && n'.commitIndex == n.commitIndex
    requires n'.snapshot == n.snapshot && n'.pending <= n.pending
    requires n'.role == Leader ==> n'.nextIndex == n.nextIndex && n'.matchIndex == n.matchIndex
    ensures NodeRel(st, n', s)
  {
    if n'.role == Leader {
      forall q | 0 <= q < |n'.nextIndex| && q < |n'.matchIndex|
        ensures PeerRel(st, n', s, q)
      {
        assert PeerRel(st, n, s, q);
      }
    }
  }

  /** The server learned of a term or a leader and follows. */
  lemma NodeDemoted(st: A.State, st': A.State, n: Node, n': Node, p: nat, t: nat)
    requires p < |st.servers| && NodeRel(st, n, st.servers[p]) && t >= n.currentTerm
    requires st' == S.StepDown(st, p, t) && A.Grows(st, st')
    requires n'.currentTerm == t && n'.role == Follower && n'.logs == n.logs && n'.commitIndex == n.commitIndex
    requires n'.snapshot == n.snapshot
    requires forall m :: m in n'.pending ==> m in n.pending || PendingRel(st', t, m)
    ensures NodeRel(st', n', st'.servers[p])
  {
    NodeRelGrows(st, st', n, st.servers[p]);
    forall m | m in n'.pending
      ensures PendingRel(st', t, m)
    {
      if m in n.pending {
        assert PendingRel(st', st.servers[p].term, m);
      }
    }
  }

  /** Nothing happened to the protocol. */
  lemma Stutters(c: Cluster, c': Cluster, st: A.State, p: nat)
    requires Rel(c, st) && A.Inv(st) && p < |c.nodes| && |c'.nodes| == |c.nodes|
    requires forall q :: 0 <= q < |c.nodes| && q != p ==> c'.nodes[q] == c.nodes[q]
    requires NodeRel(st, c'.nodes[p], st.servers[p]) && c'.votes == c.votes
    requires forall m :: m in c'.net && m !in c.net ==> MsgRel(st, m)
    ensures Rel(c', st) && Onward(st, st) && S.Path(st, [], st)
  {
    hide A.Inv, NodeRel, MsgRel;
    Restore(c, c', st, st, p);
  }

  lemma Demotes(c: Cluster, c': Cluster, st: A.State, p: nat, t: nat) returns (st': A.State, moves: seq<S.Move>)
    requires Rel(c, st) && A.Inv(st) && p < |c.nodes| && |c'.nodes| == |c.nodes|
    requires t >= c.nodes[p].currentTerm && NodeRel(st, c.nodes[p], st.servers[p])
    requires forall q :: 0 <= q < |c.nodes| && q != p ==> c'.nodes[q] == c.nodes[q]
    requires c'.votes == c.votes
    requires var n, n' := c.nodes[p], c'.nodes[p];
             && n'.currentTerm == t && n'.role == Follower && n'.logs == n.logs && n'.commitIndex == n.commitIndex
             && n'.snapshot == n.snapshot && (forall m :: m in n'.pending ==> m in n.pending || PendingRel(st, t, m))
    requires forall m :: m in c'.net && m !in c.net ==> MsgRel(st, m)
    ensures A.Inv(st') && Onward(st, st') && Rel(c', st') && S.Path(st, moves, st') && |moves| <= 1
  {
    hide A.Inv, A.Grows, NodeRel, MsgRel, NetRel, S.Path;
    st' := S.StepDown(st, p, t);
    moves := [S.StepDownMove(p, t)];
    ServerTerm(st, c.nodes[p], st.servers[p]);
    S.PathOne(st, moves[0]);
    S.StepDownKeeps(st, p, t);
    NodeDemoted(st, st', c.nodes[p], c'.nodes[p], p, t);
    MsgParts(st);
    forall m | m in c'.net && m !in c.net
      ensures MsgRel(st', m)
    {
      MsgRelGrows(st, st', m);
    }
    Restore(c, c', st, st', p);
  }

  lemma ServerTerm(st: A.State, n: Node, s: A.Server)
    requires NodeRel(st, n, s)
    ensures s.term == n.currentTerm && s.role == n.role
  {
  }
}
