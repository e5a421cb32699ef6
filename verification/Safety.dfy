/**
 * What holds over every run of the cluster.  Runs may lose, delay, reorder and repeat
 * messages, compact logs and install snapshots; except for Election Safety (see `Election`),
 * crashes are durable.
 */
module Safety {
  import opened Types
  import opened LogStore
  import opened Rpc
  import opened Handlers
  import opened Cluster
  import opened Refinement
  import Bounds
  import Entries
  import A = Replication
  import S = ReplicationSteps
  import E = Election
  import M = RefinementSteps

  function InitState(n: nat): A.State {
    A.State(
      seq(n, _ => A.Server(0, Follower, [Placeholder], 1, 0, A.Event(0, 0))),
      map[0 := [Placeholder]], map[], map[], {},
      set v: nat | v < n :: A.Ack(v, 0, 0),
      {},
      {A.Event(0, 0)}, {}, {})
  }

  lemma {:induction false} FullRange(n: nat) returns (s: set<nat>)
    ensures |s| == n && forall v: nat :: v in s <==> v < n
  {
    s := {};
    if n > 0 {
      var t := FullRange(n - 1);
      s := t + {n - 1};
    }
  }

  lemma InitRel(n: nat)
    requires n > 0
    ensures Rel(Init(n), InitState(n)) && A.Inv(InitState(n)) && E.Inv(Init(n)) && LagsOk(Init(n))
  {
    hide A.Inv, E.Inv, Rel, InitState;
    InitRelated(n);
    InitInv(n);
    E.InitOk(n);
  }

  lemma InitRelated(n: nat)
    requires n > 0
    ensures Rel(Init(n), InitState(n))
  {
    var c, st := Init(n), InitState(n);
    forall p | 0 <= p < n
      ensures NodeRel(st, c.nodes[p], st.servers[p])
    {
    }
  }

  lemma InitInv(n: nat)
    requires n > 0
    ensures A.Inv(InitState(n))
  {
    hide A.InvServers, A.InvEvents, A.InvAcks;
    InitServers(n);
    InitAcks(n);
    var st := InitState(n);
    assert A.InvLogs(st) by { assert A.Ref(st, [Placeholder], 0); }
  }

  lemma InitServers(n: nat)
    requires n > 0
    ensures A.InvServers(InitState(n))
  {
    var st := InitState(n);
    assert A.Ref(st, [Placeholder], 0);
    assert A.WellFormed(st, [Placeholder], 1);
  }

  lemma InitAcks(n: nat)
    requires n > 0
    ensures A.InvAcks(InitState(n)) && A.InvEvents(InitState(n))
  {
    var st := InitState(n);
    var all := FullRange(n);
    assert A.AckSet(st, 0, 0) == all;
  }

  /** The state a durable run reaches is matched by one the protocol reaches, move by move. */
  lemma {:induction false} RunMatched(n: nat, steps: seq<Step>) returns (st: A.State, moves: seq<S.Move>)
    requires n > 0 && IsRun(Init(n), steps) && IsDurableRun(Init(n), steps)
    ensures Rel(Exec(Init(n), steps), st) && A.Inv(st) && E.Inv(Exec(Init(n), steps)) && LagsOk(Exec(Init(n), steps))
    ensures S.Path(InitState(n), moves, st)
    decreases |steps|
  {
    hide Do, Enabled, Durable, Rel, A.Inv, E.Inv, S.Path, LagsOk, InitState, Onward;
    if steps == [] {
      st, moves := InitState(n), [];
      InitRel(n);
      NoMoves(st);
    } else {
      var init := steps[..|steps| - 1];
      var before, first := RunMatched(n, init);
      E.EnabledServer(Exec(Init(n), init), Last(steps));
      var last;
      st, last := M.MatchStep(Exec(Init(n), init), before, Last(steps));
      moves := first + last;
      S.PathJoin(InitState(n), first, before, last, st);
    }
  }

  lemma NoMoves(st: A.State)
    ensures S.Path(st, [], st)
  {
  }

  lemma RunRel(n: nat, steps: seq<Step>) returns (st: A.State)
    requires n > 0 && IsRun(Init(n), steps) && IsDurableRun(Init(n), steps)
    ensures Rel(Exec(Init(n), steps), st) && A.Inv(st) && E.Inv(Exec(Init(n), steps)) && LagsOk(Exec(Init(n), steps))
  {
    hide Rel, A.Inv, E.Inv, S.Path, LagsOk, InitState, Exec, IsRun, IsDurableRun;
    var moves;
    st, moves := RunMatched(n, steps);
  }

  /** Two moments of one run. */
  lemma {:induction false} RunRelLater(n: nat, steps: seq<Step>, more: seq<Step>) returns (st: A.State, st': A.State)
    requires n > 0 && IsRun(Init(n), steps + more) && IsDurableRun(Init(n), steps + more)
    ensures Rel(Exec(Init(n), steps), st) && A.Inv(st) && |Exec(Init(n), steps).nodes| == n
    ensures Rel(Exec(Init(n), steps + more), st') && A.Inv(st') && |Exec(Init(n), steps + more).nodes| == n
    ensures LagsOk(Exec(Init(n), steps + more))
    ensures A.Grows(st, st')
    decreases |more|
  {
    hide Do, Enabled, Durable, Rel, A.Inv, E.Inv, A.Grows, LagsOk, S.Path;
    if more == [] {
      assert steps + more == steps;
      st := RunRel(n, steps);
      st' := st;
      GrowsSelf(st);
    } else {
      var init := more[..|more| - 1];
      assert (steps + more)[..|steps + more| - 1] == steps + init;
      var mid;
      st, mid := RunRelLater(n, steps, init);
      var c := Exec(Init(n), steps + init);
      var _ := RunOk(n, steps + init);
      E.EnabledServer(c, Last(more));
      var moves;
      st', moves := M.MatchStep(c, mid, Last(more));
      OnwardGrows(mid, st');
      A.GrowsTransitive(st, mid, st');
    }
  }

  lemma RunOk(n: nat, steps: seq<Step>) returns (c: Cluster)
    requires IsRun(Init(n), steps)
    ensures c == Exec(Init(n), steps) && E.Inv(c)
  {
    E.RunOk(n, steps);
    c := Exec(Init(n), steps);
  }

  lemma GrowsSelf(st: A.State)
    ensures A.Grows(st, st)
  {
  }

  lemma OnwardGrows(st: A.State, st': A.State)
    requires Onward(st, st')
    ensures A.Grows(st, st')
  {
  }

  // ---------- Reading the theorems off the relation ----------

  /** Node p, its full log, and what the invariant says about it. */
  lemma ReadNode(c: Cluster, st: A.State, p: nat)
    requires Rel(c, st) && A.Inv(st) && p < |c.nodes|
    ensures |st.servers| == |c.nodes|
    ensures NodeRel(st, c.nodes[p], st.servers[p]) && A.ServerOk(st, st.servers[p]) && A.LeaderOk(st, p)
    ensures NodeFactsHold(st, c.nodes[p], st.servers[p])
    ensures A.InvLogs(st) && A.InvCarried(st) && A.InvEvents(st)
  {
    hide NetRel, A.InvMsgs, A.InvVotes, A.InvAcks;
    assert A.ServerOk(st, st.servers[p]) && A.LeaderOk(st, p);
    NodeFacts(st, c.nodes[p], st.servers[p]);
  }

  lemma NodeEnds(st: A.State, n: Node, s: A.Server)
    requires NodeRel(st, n, s) && NodeFactsHold(st, n, s)
    ensures |s.log| == LastIndex(n) + 1 && s.term == n.currentTerm && s.role == n.role && s.commit == n.commitIndex
  {
  }

  /** An entry after the placeholder is the full log's. */
  lemma EntryOf(st: A.State, n: Node, s: A.Server, i: nat)
    requires NodeRel(st, n, s) && NodeFactsHold(st, n, s) && FirstIndex(n.logs) < i < |s.log|
    ensures InLog(n.logs, i) && n.logs[i - FirstIndex(n.logs)] == s.log[i]
  {
  }

  /** What p committed at one moment is in q's log at a later one, as far as q has committed. */
  lemma CommittedLater(st: A.State, st': A.State, p: nat, q: nat, i: nat)
    requires A.Grows(st, st') && A.InvCarried(st') && A.InvEvents(st')
    requires p < |st.servers| && q < |st'.servers|
    requires A.ServerOk(st, st.servers[p]) && A.ServerOk(st', st'.servers[q])
    requires i <= st.servers[p].commit && i <= st'.servers[q].commit
    ensures Agree(st.servers[p].log, st'.servers[q].log, i + 1)
  {
    hide A.InvCarried, A.InvEvents, A.WellFormed, A.Junk;
    var s, s' := st.servers[p], st'.servers[q];
    assert A.Extends(st, st', s.event.term);
    A.CommitsAgree(st', s.event, s'.event, i);
  }

  /**
   * State Machine Safety: if index i counts as committed for p at one moment and for q at the
   * same or a later one, both hold the same entry there.
   */
  lemma StateMachineSafety(n: nat, steps: seq<Step>, more: seq<Step>, p: nat, q: nat, i: nat)
    requires n > 0 && p < n && q < n && IsRun(Init(n), steps + more) && IsDurableRun(Init(n), steps + more)
    requires var a, b := Exec(Init(n), steps).nodes[p], Exec(Init(n), steps + more).nodes[q];
             && FirstIndex(a.logs) < i <= a.commitIndex && FirstIndex(b.logs) < i <= b.commitIndex
    ensures var a, b := Exec(Init(n), steps).nodes[p], Exec(Init(n), steps + more).nodes[q];
            && InLog(a.logs, i) && InLog(b.logs, i)
            && a.logs[i - FirstIndex(a.logs)] == b.logs[i - FirstIndex(b.logs)]
  {
    hide A.Inv, A.Grows, A.ServerOk, A.LeaderOk, A.InvLogs, A.InvCarried, A.InvEvents, Rel, Exec, IsRun, IsDurableRun;
    var st, st' := RunRelLater(n, steps, more);
    ReadNode(Exec(Init(n), steps), st, p);
    ReadNode(Exec(Init(n), steps + more), st', q);
    CommitBound(st, st.servers[p]);
    CommitBound(st', st'.servers[q]);
    CommittedLater(st, st', p, q, i);
  }

  lemma CommitBound(st: A.State, s: A.Server)
    requires A.ServerOk(st, s)
    ensures s.commit < |s.log|
  {
  }

  /**
   * The same across compaction: up to i at p and j at q, both committed there, the stored
   * snapshot plus the committed entries after it are i and j commands that agree as far as both
   * reach, whatever either has compacted or installed.
   */
  lemma ServiceAgreement(n: nat, steps: seq<Step>, more: seq<Step>, p: nat, q: nat, i: nat, j: nat)
    requires n > 0 && p < n && q < n && IsRun(Init(n), steps + more) && IsDurableRun(Init(n), steps + more)
    requires var a, b := Exec(Init(n), steps).nodes[p], Exec(Init(n), steps + more).nodes[q];
             && FirstIndex(a.logs) <= i <= a.commitIndex && FirstIndex(b.logs) <= j <= b.commitIndex
    ensures var a, b := Exec(Init(n), steps).nodes[p], Exec(Init(n), steps + more).nodes[q];
            && |ServiceState(a, i)| == i && |ServiceState(b, j)| == j
            && (i <= j ==> ServiceState(a, i) <= ServiceState(b, j))
            && (j <= i ==> ServiceState(b, j) <= ServiceState(a, i))
  {
    hide A.Inv, A.Grows, A.ServerOk, A.LeaderOk, A.InvLogs, A.InvCarried, A.InvEvents, Rel, Exec, IsRun, IsDurableRun,
         ServiceState, Compact;
    var st, st' := RunRelLater(n, steps, more);
    var a, b := Exec(Init(n), steps).nodes[p], Exec(Init(n), steps + more).nodes[q];
    ReadNode(Exec(Init(n), steps), st, p);
    ReadNode(Exec(Init(n), steps + more), st', q);
    CommitBound(st, st.servers[p]);
    CommitBound(st', st'.servers[q]);
    CommittedLater(st, st', p, q, Min(i, j));
    M.TrimmedState(a, st.servers[p].log, i);
    M.TrimmedState(b, st'.servers[q].log, j);
    CommandsAgree(st.servers[p].log, st'.servers[q].log, i, j);
    CommandsAgree(st'.servers[q].log, st.servers[p].log, j, i);
  }

  lemma CommandsAgree(a: seq<Entry>, b: seq<Entry>, i: nat, j: nat)
    requires i < |a| && j < |b| && (Agree(a, b, Min(i, j) + 1) || Agree(b, a, Min(i, j) + 1))
    ensures i <= j ==> Commands(a[1..i + 1]) <= Commands(b[1..j + 1])
  {
  }

  /** What p committed is in the log of any leader of the same or a later term, before or after. */
  lemma LeaderHasCommitted(st: A.State, s: A.Server, u: nat)
    requires A.InvLogs(st) && A.InvCarried(st) && A.InvEvents(st) && A.ServerOk(st, s) && u in st.llog && s.term <= u
    ensures Agree(s.log, st.llog[u], s.commit + 1)
    ensures forall i :: 0 <= i <= s.commit ==> s.log[i].term <= s.term
  {
    hide A.InvCarried, A.InvEvents, A.WellFormed, A.Junk;
    A.LeaderCompleteness(st, s.event, u);
  }

  /**
   * Leader Completeness: if p counts N as committed in term T, a leader of a term from T on,
   * seen later in the run, holds p's entries at every index up to N that it has not compacted.
   */
  lemma LeaderCompleteness(n: nat, steps: seq<Step>, more: seq<Step>, p: nat, q: nat, i: nat)
    requires n > 0 && p < n && q < n && IsRun(Init(n), steps + more) && IsDurableRun(Init(n), steps + more)
    requires var a, b := Exec(Init(n), steps).nodes[p], Exec(Init(n), steps + more).nodes[q];
             && FirstIndex(a.logs) < i <= a.commitIndex && FirstIndex(b.logs) < i
             && b.role == Leader && b.currentTerm >= a.currentTerm
    ensures var a, b := Exec(Init(n), steps).nodes[p], Exec(Init(n), steps + more).nodes[q];
            && InLog(a.logs, i) && InLog(b.logs, i)
            && a.logs[i - FirstIndex(a.logs)] == b.logs[i - FirstIndex(b.logs)]
  {
    hide A.Inv, A.Grows, A.ServerOk, A.LeaderOk, A.InvLogs, A.InvCarried, A.InvEvents, Rel, Exec, IsRun, IsDurableRun,
         NodeRel, NodeFactsHold;
    var st, st' := RunRelLater(n, steps, more);
    var a, b := Exec(Init(n), steps).nodes[p], Exec(Init(n), steps + more).nodes[q];
    ReadNode(Exec(Init(n), steps), st, p);
    ReadNode(Exec(Init(n), steps + more), st', q);
    CommitBound(st, st.servers[p]);
    A.ServerOkGrows(st, st', st.servers[p]);
    NodeEnds(st, a, st.servers[p]);
    NodeEnds(st', b, st'.servers[q]);
    LeadersOwn(st', q);
    LeaderHasCommitted(st', st.servers[p], st'.servers[q].term);
    EntryOf(st, a, st.servers[p], i);
    EntryOf(st', b, st'.servers[q], i);
  }

  lemma LeadersOwn(st: A.State, p: nat)
    requires p < |st.servers| && A.LeaderOk(st, p) && st.servers[p].role == Leader
    ensures st.servers[p].term in st.llog && st.llog[st.servers[p].term] == st.servers[p].log
  {
  }

  /** The same for a leader of a later term seen before p learned of the commit. */
  lemma LeaderCompletenessEarlier(n: nat, steps: seq<Step>, more: seq<Step>, p: nat, q: nat, i: nat)
    requires n > 0 && p < n && q < n && IsRun(Init(n), steps + more) && IsDurableRun(Init(n), steps + more)
    requires var a, b := Exec(Init(n), steps + more).nodes[p], Exec(Init(n), steps).nodes[q];
             && FirstIndex(a.logs) < i <= a.commitIndex && FirstIndex(b.logs) < i
             && b.role == Leader && b.currentTerm > a.currentTerm
    ensures var a, b := Exec(Init(n), steps + more).nodes[p], Exec(Init(n), steps).nodes[q];
            && InLog(a.logs, i) && InLog(b.logs, i)
            && a.logs[i - FirstIndex(a.logs)] == b.logs[i - FirstIndex(b.logs)]
  {
    hide A.Inv, A.Grows, A.ServerOk, A.LeaderOk, A.InvLogs, A.InvCarried, A.InvEvents, Rel, Exec, IsRun, IsDurableRun,
         NodeRel, NodeFactsHold;
    var st, st' := RunRelLater(n, steps, more);
    var a, b := Exec(Init(n), steps + more).nodes[p], Exec(Init(n), steps).nodes[q];
    ReadNode(Exec(Init(n), steps), st, q);
    ReadNode(Exec(Init(n), steps + more), st', p);
    CommitBound(st', st'.servers[p]);
    NodeEnds(st', a, st'.servers[p]);
    NodeEnds(st, b, st.servers[q]);
    LeadersOwn(st, q);
    var u := st.servers[q].term;
    TermExtends(st, st', u);
    LeaderHasCommitted(st', st'.servers[p], u);
    EarlierHas(st, st', st'.servers[p].log, u, i);
    EntryOf(st', a, st'.servers[p], i);
    EntryOf(st, b, st.servers[q], i);
  }

  /** What the term's leader got later has that term, so an older entry was there before. */
  lemma EarlierHas(st: A.State, st': A.State, log: seq<Entry>, u: nat, i: nat)
    requires u in st.llog && u in st'.llog && A.Extends(st, st', u) && i < |log| && Agree(log, st'.llog[u], i + 1)
    requires log[i].term < u
    ensures i < |st.llog[u]| && st.llog[u][i] == log[i]
  {
    assert st'.llog[u][i] == log[i];
  }

  lemma TermExtends(st: A.State, st': A.State, u: nat)
    requires A.Grows(st, st') && u in st.llog
    ensures u in st'.llog && A.Extends(st, st', u)
  {
  }

  lemma NoTailAtHead(st: A.State, log: seq<Entry>, p: nat)
    requires A.InvLogs(st) && |log| > 0 && log[0] == Placeholder
    ensures p < |log| ==> !A.Junk(st, log, 1, p)
  {
  }

  /** A log that was never compacted has no unchecked tail and is the full log. */
  lemma Uncompacted(st: A.State, n: Node, s: A.Server)
    requires A.InvLogs(st) && A.ServerOk(st, s) && NodeRel(st, n, s) && FirstIndex(n.logs) == 0
    ensures n.logs == s.log && A.WellFormed(st, n.logs, |n.logs|)
  {
    M.ZeroTerm(st, s);
    NoTailAtHead(st, s.log, 1);
  }

  /**
   * Log Matching on uncompacted logs, across servers and across time: the same term at an
   * index means the same entries up to it, and terms never decrease.
   */
  lemma LogMatching(n: nat, steps: seq<Step>, more: seq<Step>, p: nat, q: nat, i: nat)
    requires n > 0 && p < n && q < n && IsRun(Init(n), steps + more) && IsDurableRun(Init(n), steps + more)
    requires var a, b := Exec(Init(n), steps).nodes[p], Exec(Init(n), steps + more).nodes[q];
             && FirstIndex(a.logs) == 0 && FirstIndex(b.logs) == 0
             && i < |a.logs| && i < |b.logs| && a.logs[i].term == b.logs[i].term
    ensures var a, b := Exec(Init(n), steps).nodes[p], Exec(Init(n), steps + more).nodes[q];
            && a.logs[..i + 1] == b.logs[..i + 1]
            && forall j, k :: 0 <= j <= k <= i ==> a.logs[j].term <= a.logs[k].term
  {
    hide A.Inv, A.Grows, A.ServerOk, A.LeaderOk, A.InvLogs, A.InvCarried, A.InvEvents, A.WellFormed, Rel, Exec, IsRun,
         IsDurableRun, NodeRel, NodeFactsHold;
    var st, st' := RunRelLater(n, steps, more);
    var a, b := Exec(Init(n), steps).nodes[p], Exec(Init(n), steps + more).nodes[q];
    ReadNode(Exec(Init(n), steps), st, p);
    ReadNode(Exec(Init(n), steps + more), st', q);
    Uncompacted(st, a, st.servers[p]);
    Uncompacted(st', b, st'.servers[q]);
    A.WellFormedGrows(st, st', a.logs, |a.logs|);
    MatchingLogs(st', a.logs, b.logs, i);
  }

  lemma MatchingLogs(st: A.State, a: seq<Entry>, b: seq<Entry>, i: nat)
    requires A.InvLogs(st) && A.WellFormed(st, a, |a|) && A.WellFormed(st, b, |b|)
    requires i < |a| && i < |b| && a[i].term == b[i].term
    ensures a[..i + 1] == b[..i + 1]
    ensures forall j, k :: 0 <= j <= k <= i ==> a[j].term <= a[k].term
  {
    hide A.InvLogs;
    A.LogMatching(st, a, |a|, b, |b|, i);
    forall j, k | 0 <= j <= k <= i
      ensures a[j].term <= a[k].term
    {
      A.TermsMonotone(st, a, |a|, j, k);
    }
  }

  /**
   * When a server installs a snapshot, its log afterwards, with what it compacts, is at every
   * index what that entry's leader had up to there, exactly when no tail is left behind the
   * snapshot or the log had the snapshot's term at its index.  The code looks at neither.
   */
  lemma InstallMatchesIff(n: nat, steps: seq<Step>, p: nat, msg: SnapshotMsg) returns (st: A.State)
    requires n > 0 && p < n && IsRun(Init(n), steps + [Install(p, msg)]) && IsDurableRun(Init(n), steps + [Install(p, msg)])
    requires msg.index > Exec(Init(n), steps).nodes[p].commitIndex
    ensures Rel(Exec(Init(n), steps + [Install(p, msg)]), st) && A.Inv(st)
    ensures var f := Exec(Init(n), steps).nodes[p];
            && p < |st.servers|
            && (A.WellFormed(st, st.servers[p].log, |st.servers[p].log|) <==>
                  LastIndex(f) <= msg.index || TermAt(f.logs, msg.index) == msg.term)
  {
    hide A.Inv, A.ServerOk, A.LeaderOk, A.InvLogs, A.InvCarried, A.InvEvents, A.WellFormed, Rel, Exec, IsRun,
         IsDurableRun, NodeRel, Do, Enabled, E.Inv, LagsOk, SnapIs, S.Installed;
    LastStep(n, steps, Install(p, msg));
    var c := Exec(Init(n), steps);
    var before := RunRel(n, steps);
    ReadNode(c, before, p);
    var moves;
    st, moves := M.InstallStep(c, before, p, msg);
    var f, s, m := c.nodes[p], before.servers[p], moves[0].snap;
    NodeEnds(before, f, s);
    assert moves == [moves[0]];
    InstallOf(before, p, moves[0], st);
    Snapped(m, msg);
    S.InstallMatches(before, s, m);
    M.SnapIndex(before, f, s);
    TermOf(before, f, s, msg.index);
    SameRefs(before, st, S.Installed(s, m).log);
  }

  lemma LastStep(n: nat, steps: seq<Step>, s: Step)
    requires IsRun(Init(n), steps + [s]) && IsDurableRun(Init(n), steps + [s])
    ensures IsRun(Init(n), steps) && IsDurableRun(Init(n), steps) && Enabled(Exec(Init(n), steps), s)
    ensures s.p < n ==> Exec(Init(n), steps + [s]) == Do(Exec(Init(n), steps), s)
  {
    hide Do;
    assert (steps + [s])[..|steps + [s]| - 1] == steps && Last(steps + [s]) == s;
  }

  lemma InstallOf(before: A.State, p: nat, move: S.Move, st: A.State)
    requires move.InstallMove? && move.v == p && S.Path(before, [move], st) && A.Inv(before)
    ensures p < |before.servers| == |st.servers| && A.SnapOk(before, move.snap) && |move.snap.log| > 0
    ensures move.snap.term <= before.servers[p].term && |move.snap.log| - 1 > before.servers[p].commit
    ensures st == before.(servers := st.servers) && st.servers[p] == S.Installed(before.servers[p], move.snap)
  {
    hide A.Inv;
    assert [move][1..] == [] && [move][0] == move;
    SnapOf(before, move.snap);
  }

  lemma SnapOf(st: A.State, m: A.SnapMsg)
    requires A.Inv(st) && m in st.snaps
    ensures A.SnapOk(st, m)
  {
  }

  lemma Snapped(m: A.SnapMsg, msg: SnapshotMsg)
    requires SnapIs(m, msg.term, msg.index, msg.data)
    ensures |m.log| == msg.index + 1 && m.log[msg.index].term == msg.term
  {
  }

  lemma TermOf(st: A.State, n: Node, s: A.Server, i: nat)
    requires NodeFactsHold(st, n, s) && i >= FirstIndex(n.logs)
    ensures i < |s.log| ==> TermAt(n.logs, i) == s.log[i].term
    ensures LastIndex(n) == |s.log| - 1
  {
  }

  lemma SameRefs(st: A.State, st': A.State, log: seq<Entry>)
    requires st'.llog == st.llog
    ensures A.WellFormed(st', log, |log|) <==> A.WellFormed(st, log, |log|)
  {
    forall p | 0 <= p < |log|
      ensures A.Ref(st', log, p) <==> A.Ref(st, log, p)
    {
    }
  }

  /** In a durable run the log covers the commit index. */
  lemma CommitInLog(n: nat, steps: seq<Step>, p: nat)
    requires n > 0 && p < n && IsRun(Init(n), steps) && IsDurableRun(Init(n), steps)
    ensures Exec(Init(n), steps).nodes[p].commitIndex <= LastIndex(Exec(Init(n), steps).nodes[p])
  {
    hide A.Inv, A.ServerOk, A.LeaderOk, A.InvLogs, A.InvCarried, A.InvEvents, Rel, Exec, IsRun, IsDurableRun;
    var st := RunRel(n, steps);
    ReadNode(Exec(Init(n), steps), st, p);
    CommitBound(st, st.servers[p]);
  }

  /** In a durable run the commit index of every append request lies within what it covers. */
  lemma RequestsCoverCommit(n: nat, steps: seq<Step>, to: nat, a: AppendRequest)
    requires n > 0 && IsRun(Init(n), steps) && IsDurableRun(Init(n), steps)
    requires AskAppend(to, a) in Exec(Init(n), steps).net
    ensures a.leaderCommit <= a.prevIndex + |a.entries|
  {
    hide A.Inv, Exec, IsRun, IsDurableRun, NodesRel, AppendIs;
    var st := RunRel(n, steps);
    M.GetMsg(Exec(Init(n), steps), st, AskAppend(to, a));
    var m :| m in st.appends && AppendIs(m, a);
    M.AppendFacts(st, A.Server(0, Follower, [], 0, 0, A.Event(0, 0)), m, a);
    CommitSent(m, a);
    M.AppendLength(m, a);
  }

  /**
   * The follower's commit is sound although it is bounded by its own last index: after a
   * successful request it holds every entry sent, and its commit index is the leader's, which
   * lies within the request, unless it was further already.
   */
  lemma FollowerCommitSound(n: nat, steps: seq<Step>, p: nat, a: AppendRequest)
    requires n > 0 && p < n && IsRun(Init(n), steps) && IsDurableRun(Init(n), steps)
    requires AskAppend(p, a) in Exec(Init(n), steps).net
    requires HandleAppend(Exec(Init(n), steps).nodes[p], a).1.success
    ensures var f := Exec(Init(n), steps).nodes[p];
            var f' := HandleAppend(f, a).0;
            && f'.commitIndex == Max(f.commitIndex, a.leaderCommit) <= Max(f.commitIndex, a.prevIndex + |a.entries|)
            && Entries.HoldsRequest(f'.logs, a)
  {
    hide Exec, IsRun, IsDurableRun, HandleAppend, Entries.HoldsRequest;
    var f := Exec(Init(n), steps).nodes[p];
    RequestsCoverCommit(n, steps, p, a);
    Entries.FollowerHolds(n, steps, p, a);
    var k := Bounds.RequestsCarrySuffix(n, steps, p, a);
    Bounds.RunOk(n, steps);
    Bounds.GetNode(Exec(Init(n), steps), p);
    Bounds.AppendOk(f, a);
    EndsPast(HandleAppend(f, a).0.logs, a);
    CommitTaken(f, a);
  }

  lemma EndsPast(logs: Log, a: AppendRequest)
    requires Contiguous(logs) && Entries.HoldsRequest(logs, a)
    ensures a.prevIndex + |a.entries| <= LastLog(logs).index
  {
    if a.entries != [] {
      assert HasEntry(logs, a.prevIndex + 1 + (|a.entries| - 1), a.entries[|a.entries| - 1]);
    }
  }

  lemma CommitTaken(f: Node, a: AppendRequest)
    requires HandleAppend(f, a).1.success && a.leaderCommit <= LastIndex(HandleAppend(f, a).0)
    ensures HandleAppend(f, a).0.commitIndex == Max(f.commitIndex, a.leaderCommit)
  {
    hide Splice, ScanBack;
  }

  lemma ReadFacts(st: A.State, n: Node, s: A.Server)
    requires NodeFactsHold(st, n, s)
    ensures Numbered(s.log) && |n.logs| == |s.log| - FirstIndex(n.logs)
    ensures forall i :: FirstIndex(n.logs) <= i < |s.log| ==> TermAt(n.logs, i) == s.log[i].term
  {
  }

  lemma SuccessMeans(f: Node, a: AppendRequest)
    requires HandleAppend(f, a).1.success
    ensures a.term >= f.currentTerm && a.prevIndex >= FirstIndex(f.logs) && MatchLog(f.logs, a.prevTerm, a.prevIndex)
  {
    hide Splice, ScanBack;
  }

  /**
   * More: while the sender still leads, the follower equals the sender's log at every index the
   * request covers or the new commit index reaches, probed and earlier ones included, as far as
   * neither has compacted it.
   */
  lemma FollowerMatchesLeader(n: nat, steps: seq<Step>, p: nat, a: AppendRequest, q: nat, i: nat)
    requires n > 0 && p < n && q < n && IsRun(Init(n), steps) && IsDurableRun(Init(n), steps)
    requires AskAppend(p, a) in Exec(Init(n), steps).net
    requires HandleAppend(Exec(Init(n), steps).nodes[p], a).1.success
    requires var l, f' := Exec(Init(n), steps).nodes[q], HandleAppend(Exec(Init(n), steps).nodes[p], a).0;
             && l.role == Leader && l.currentTerm == a.term
             && FirstIndex(l.logs) < i && FirstIndex(f'.logs) < i <= Max(a.prevIndex + |a.entries|, f'.commitIndex)
    ensures var l, f' := Exec(Init(n), steps).nodes[q], HandleAppend(Exec(Init(n), steps).nodes[p], a).0;
            && InLog(l.logs, i) && InLog(f'.logs, i)
            && f'.logs[i - FirstIndex(f'.logs)] == l.logs[i - FirstIndex(l.logs)]
  {
    hide A.Inv, A.ServerOk, A.LeaderOk, A.InvLogs, A.InvCarried, A.InvEvents, Exec, IsRun, IsDurableRun, AppendIs, Rel,
         NodeRel, NodeFactsHold, HandleAppend;
    var st := RunRel(n, steps);
    var c := Exec(Init(n), steps);
    ReadNode(c, st, p);
    ReadNode(c, st, q);
    M.GetMsg(c, st, AskAppend(p, a));
    var m :| m in st.appends && AppendIs(m, a);
    MatchesLeader(st, c.nodes[p], p, c.nodes[q], q, m, a, i);
  }

  lemma MatchesLeader(st: A.State, f: Node, p: nat, l: Node, q: nat, m: A.AppendMsg, a: AppendRequest, i: nat)
    requires A.Inv(st) && A.InvLogs(st) && A.InvCarried(st) && A.InvEvents(st) && p < |st.servers| && q < |st.servers|
    requires NodeRel(st, f, st.servers[p]) && NodeFactsHold(st, f, st.servers[p]) && A.ServerOk(st, st.servers[p])
    requires NodeRel(st, l, st.servers[q]) && NodeFactsHold(st, l, st.servers[q]) && A.LeaderOk(st, q)
    requires m in st.appends && AppendIs(m, a) && HandleAppend(f, a).1.success
    requires l.role == Leader && l.currentTerm == a.term && FirstIndex(l.logs) < i
    requires var f' := HandleAppend(f, a).0; FirstIndex(f'.logs) < i <= Max(a.prevIndex + |a.entries|, f'.commitIndex)
    ensures var f' := HandleAppend(f, a).0;
            && InLog(l.logs, i) && InLog(f'.logs, i)
            && f'.logs[i - FirstIndex(f'.logs)] == l.logs[i - FirstIndex(l.logs)]
  {
    hide A.Inv, A.ServerOk, A.LeaderOk, A.InvLogs, A.InvCarried, A.InvEvents, A.AppendOk, AppendIs,
         NodeRel, NodeFactsHold, HandleAppend, Splice, Compact, TermsDecide, MatchLog, InLog, FirstIndex, Numbered;
    var s, sl := st.servers[p], st.servers[q];
    NodeEnds(st, f, s);
    NodeEnds(st, l, sl);
    M.AppendFacts(st, s, m, a);
    SuccessMeans(f, a);
    M.AcceptFacts(st, f, s, p, m);
    M.AppendLength(m, a);
    ReadFacts(st, f, s);
    OfNode(st, f, s);
    M.AcceptedLog(f, s, m, a);
    M.AcceptFields(f, a);
    var log := if m.log <= s.log then s.log else m.log;
    SentPrefix(st, m, q);
    CommitSent(m, a);
    assert i < |m.log| || i <= s.commit;
    AcceptedPrefix(st, s, m, sl, log, i);
    EntryOf(st, l, sl, i);
    CompactEntry(log, FirstIndex(f.logs), i);
  }

  lemma OfNode(st: A.State, n: Node, s: A.Server)
    requires NodeRel(st, n, s)
    ensures FirstIndex(n.logs) < |s.log| && n.logs == Compact(s.log, FirstIndex(n.logs))
  {
  }

  lemma CommitSent(m: A.AppendMsg, a: AppendRequest)
    requires AppendIs(m, a)
    ensures a.leaderCommit == m.commit
  {
  }

  /** The request is a prefix of its leader's log. */
  lemma SentPrefix(st: A.State, m: A.AppendMsg, q: nat)
    requires A.AppendOk(st, m) && q < |st.servers| && A.LeaderOk(st, q)
    requires st.servers[q].role == Leader && st.servers[q].term == m.term
    ensures m.term in st.llog && st.llog[m.term] == st.servers[q].log
    ensures Agree(m.log, st.servers[q].log, |m.log|) && m.commit < |m.log|
  {
  }

  lemma AcceptedPrefix(st: A.State, s: A.Server, m: A.AppendMsg, l: A.Server, log: seq<Entry>, i: nat)
    requires A.InvCarried(st) && A.InvEvents(st) && A.ServerOk(st, s) && m.term in st.llog && st.llog[m.term] == l.log && s.term <= m.term
    requires Agree(m.log, l.log, |m.log|) && log == if m.log <= s.log then s.log else m.log
    requires i < |m.log| || i <= s.commit
    ensures i < |log| && i < |l.log| && log[i] == l.log[i]
  {
    hide A.InvCarried, A.InvEvents, A.WellFormed, A.Junk, A.Justified;
    S.CommitInLeader(st, s, m.term);
    if !(m.log <= s.log) {
      S.PrefixOrLonger(m.log, s.log, l.log, s.commit + 1);
    }
  }

  lemma CompactEntry(log: seq<Entry>, first: nat, i: nat)
    requires first < i < |log|
    ensures FirstIndex(Compact(log, first)) == first && InLog(Compact(log, first), i)
    ensures Compact(log, first)[i - first] == log[i]
  {
  }
}
