/**
 * The cluster provides what the apply path takes for granted: over any durable run there is one
 * committed log that every server's log, snapshots and commit index follow at every moment, and
 * whatever Raft does beside the apply path leaves the committed part of a server's log in place.
 */
module OneLog {
  import opened Types
  import opened LogStore
  import opened Rpc
  import opened Median
  import opened Handlers
  import opened Cluster
  import opened Refinement
  import A = Replication
  import E = Election
  import M = RefinementSteps
  import P = Pipeline
  import Bounds
  import Safety

  // ---------- One committed log ----------

  ghost predicate Covers(st: A.State, e: A.Event, i: nat) {
    e in st.commits && e.term in st.llog && i <= e.index < |st.llog[e.term]|
  }

  /** Index i as any commit covering it gives it. */
  ghost function EntryAt(st: A.State, i: nat): (r: Entry)
    ensures (exists e :: Covers(st, e, i)) ==> exists e :: Covers(st, e, i) && r == st.llog[e.term][i]
  {
    if exists e :: Covers(st, e, i) then
      var e :| Covers(st, e, i);
      st.llog[e.term][i]
    else Entry(i, 0, Nil)
  }

  ghost function Committed(st: A.State): P.Committed {
    (i: nat) => EntryAt(st, i)
  }

  lemma Cover(st: A.State, e: A.Event, i: nat) returns (f: A.Event)
    requires Covers(st, e, i)
    ensures Covers(st, f, i) && EntryAt(st, i) == st.llog[f.term][i]
  {
    f :| Covers(st, f, i) && EntryAt(st, i) == st.llog[f.term][i];
  }

  lemma EntryAtIs(st: A.State, e: A.Event, i: nat)
    requires A.InvCarried(st) && A.InvEvents(st) && Covers(st, e, i)
    ensures Committed(st)(i) == st.llog[e.term][i]
  {
    var f := Cover(st, e, i);
    A.CommitsAgree(st, e, f, i);
  }

  lemma CommittedIndexed(st: A.State)
    requires A.InvLogs(st)
    ensures P.Indexed(Committed(st))
  {
    forall i
      ensures Committed(st)(i).index == i
    {
    }
  }

  /** The server's commit index, log, stored snapshot and received snapshots follow `at`. */
  ghost predicate Follows(at: P.Committed, n: Node) {
    && Contiguous(n.logs)
    && FirstIndex(n.logs) <= n.commitIndex < FirstIndex(n.logs) + |n.logs|
    && (forall i :: FirstIndex(n.logs) < i <= n.commitIndex ==> n.logs[i - FirstIndex(n.logs)] == at(i))
    && n.snapshot == P.Prefix(at, FirstIndex(n.logs))
    && (forall m :: m in n.pending ==> m.data == P.Prefix(at, m.index))
  }

  /** A justified prefix, at the end of the run, is a prefix of the committed log. */
  lemma JustifiedFollows(st': A.State, u: nat, e: A.Event, k: nat, log: seq<Entry>)
    requires A.InvCarried(st') && A.InvEvents(st') && A.Justified(st', u, e, k, log)
    ensures k < |log| && forall i :: 0 <= i <= k ==> log[i] == Committed(st')(i)
  {
    hide A.InvCarried, A.InvEvents;
    forall i | 0 <= i <= k
      ensures log[i] == Committed(st')(i)
    {
      assert Covers(st', e, i);
      EntryAtIs(st', e, i);
    }
  }

  lemma PrefixOf(at: P.Committed, log: seq<Entry>, k: nat)
    requires k < |log| && forall i :: 0 <= i <= k ==> log[i] == at(i)
    ensures Commands(log[1..k + 1]) == P.Prefix(at, k)
  {
    forall j | 0 <= j < k
      ensures Commands(log[1..k + 1])[j] == P.Prefix(at, k)[j]
    {
      assert log[1..k + 1][j] == log[j + 1];
    }
  }

  lemma PendingFollows(st: A.State, st': A.State, t: nat, m: SnapshotMsg)
    requires A.Grows(st, st') && A.InvMsgs(st) && A.InvCarried(st') && A.InvEvents(st') && PendingRel(st, t, m)
    ensures m.data == P.Prefix(Committed(st'), m.index)
  {
    hide A.Grows, A.InvCarried, A.InvEvents, P.Prefix, Commands;
    var w :| w in st.snaps && w.term <= t && SnapIs(w, m.term, m.index, m.data);
    assert A.SnapOk(st, w);
    A.JustifiedGrows(st, st', w.term, w.event, |w.log| - 1, w.log);
    JustifiedFollows(st', w.term, w.event, |w.log| - 1, w.log);
    PrefixOf(Committed(st'), w.log, m.index);
    assert w.log[1..m.index + 1] == w.log[1..];
  }

  lemma NodeFollows(c: Cluster, st: A.State, st': A.State, p: nat)
    requires Rel(c, st) && A.Inv(st) && p < |c.nodes| && A.Grows(st, st') && A.InvCarried(st') && A.InvEvents(st')
    ensures Follows(Committed(st'), c.nodes[p])
  {
    hide A.Inv, A.Grows, A.InvLogs, A.InvCarried, A.InvEvents, A.InvMsgs, A.WellFormed, A.LeaderOk, Rel, P.Prefix,
         Commands, PendingRel, EntryAt, Committed;
    Safety.ReadNode(c, st, p);
    var n, s := c.nodes[p], st.servers[p];
    var first := FirstIndex(n.logs);
    A.JustifiedGrows(st, st', s.term, s.event, s.commit, s.log);
    JustifiedFollows(st', s.term, s.event, s.commit, s.log);
    PrefixOf(Committed(st'), s.log, first);
    CompactLookup(s.log, first);
    MsgPart(st);
    forall m | m in n.pending
      ensures m.data == P.Prefix(Committed(st'), m.index)
    {
      PendingFollows(st, st', s.term, m);
    }
  }

  lemma MsgPart(st: A.State)
    requires A.Inv(st)
    ensures A.InvMsgs(st)
  {
  }

  /** The protocol states behind every moment of a run. */
  lemma {:induction false} History(n: nat, steps: seq<Step>) returns (h: seq<A.State>)
    requires n > 0 && IsRun(Init(n), steps) && IsDurableRun(Init(n), steps)
    ensures |h| == |steps| + 1
    ensures forall k :: 0 <= k < |h| ==> Moment(n, steps, k, h[k], h[|steps|])
    decreases |steps|
  {
    hide Moment, Do, Enabled, Durable, A.Inv, Rel, E.Inv, LagsOk;
    if steps == [] {
      var st := Safety.RunRel(n, steps);
      Safety.GrowsSelf(st);
      h := [st];
      NewMoment(n, steps, 0, st, st);
    } else {
      var init := steps[..|steps| - 1];
      var g := History(n, init);
      var last := g[|init|];
      assert Moment(n, init, |init|, last, last);
      LastMoment(n, init, last);
      var _ := Safety.RunOk(n, init);
      E.EnabledServer(Exec(Init(n), init), Last(steps));
      LastLags(n, init);
      var st', moves := M.MatchStep(Exec(Init(n), init), last, Last(steps));
      Safety.OnwardGrows(last, st');
      h := g + [st'];
      forall k | 0 <= k < |h|
        ensures Moment(n, steps, k, h[k], st')
      {
        if k < |g| {
          assert Moment(n, init, k, g[k], last);
          ExtendMoment(n, steps, k, g[k], last, st');
        } else {
          assert steps[..|steps|] == steps;
          Safety.GrowsSelf(st');
          NewMoment(n, steps, k, st', st');
        }
      }
    }
  }

  lemma LastLags(n: nat, steps: seq<Step>)
    requires n > 0 && IsRun(Init(n), steps) && IsDurableRun(Init(n), steps)
    ensures LagsOk(Exec(Init(n), steps))
  {
    hide Exec, IsRun, IsDurableRun, LagsOk;
    var st := Safety.RunRel(n, steps);
  }

  /** `st` stands behind the state after the first k steps, and grows into `st'`. */
  ghost predicate Moment(n: nat, steps: seq<Step>, k: nat, st: A.State, st': A.State) {
    k <= |steps| && Rel(Exec(Init(n), steps[..k]), st) && A.Inv(st) && A.Grows(st, st')
  }

  lemma NewMoment(n: nat, steps: seq<Step>, k: nat, st: A.State, st': A.State)
    requires k <= |steps| && Rel(Exec(Init(n), steps[..k]), st) && A.Inv(st) && A.Grows(st, st')
    ensures Moment(n, steps, k, st, st')
  {
  }

  lemma LastMoment(n: nat, steps: seq<Step>, st: A.State)
    requires Moment(n, steps, |steps|, st, st)
    ensures Rel(Exec(Init(n), steps), st) && A.Inv(st)
  {
    assert steps[..|steps|] == steps;
  }

  lemma ExtendMoment(n: nat, steps: seq<Step>, k: nat, st: A.State, mid: A.State, st': A.State)
    requires |steps| > 0 && Moment(n, steps[..|steps| - 1], k, st, mid) && A.Grows(mid, st')
    ensures Moment(n, steps, k, st, st')
  {
    hide A.Grows, A.Inv, Rel, Exec;
    A.GrowsTransitive(st, mid, st');
    assert steps[..|steps| - 1][..k] == steps[..k];
  }

  ghost predicate FollowsRun(at: P.Committed, n: nat, steps: seq<Step>) {
    P.Indexed(at) && forall k, p :: 0 <= k <= |steps| && 0 <= p < n ==> FollowsAt(at, n, steps, k, p)
  }

  /**
   * One committed log for a whole run: at every moment every server follows it, whatever has
   * been compacted, installed, lost or restarted.
   */
  lemma OneCommittedLog(n: nat, steps: seq<Step>) returns (at: P.Committed)
    requires n > 0 && IsRun(Init(n), steps) && IsDurableRun(Init(n), steps)
    ensures FollowsRun(at, n, steps)
  {
    hide Exec, IsRun, IsDurableRun, A.Inv, A.Grows, Rel, Follows, Committed, P.Indexed, FollowsAt;
    var h := History(n, steps);
    var st' := h[|steps|];
    at := Committed(st');
    assert Moment(n, steps, |steps|, st', st');
    EventParts(st');
    CommittedIndexed(st');
    forall k, p | 0 <= k <= |steps| && 0 <= p < n
      ensures FollowsAt(at, n, steps, k, p)
    {
      assert Moment(n, steps, k, h[k], st');
      NodeCount(n, steps[..k]);
      NodeFollows(Exec(Init(n), steps[..k]), h[k], st', p);
      FollowsThere(at, n, steps, k, p);
    }
  }

  ghost predicate FollowsAt(at: P.Committed, n: nat, steps: seq<Step>, k: nat, p: nat) {
    k <= |steps| && p < |Exec(Init(n), steps[..k]).nodes| && Follows(at, Exec(Init(n), steps[..k]).nodes[p])
  }

  lemma FollowsThere(at: P.Committed, n: nat, steps: seq<Step>, k: nat, p: nat)
    requires k <= |steps| && p < |Exec(Init(n), steps[..k]).nodes| && Follows(at, Exec(Init(n), steps[..k]).nodes[p])
    ensures FollowsAt(at, n, steps, k, p)
  {
  }

  lemma EventParts(st: A.State)
    requires A.Inv(st)
    ensures A.InvLogs(st) && A.InvCarried(st) && A.InvEvents(st)
  {
  }

  lemma NodeCount(n: nat, steps: seq<Step>)
    ensures |Exec(Init(n), steps).nodes| == n
  {
  }

  // ---------- What Raft does beside the apply path ----------

  /** The steps that are the apply path's own, or end it. */
  predicate OwnStep(s: Step) {
    s.Install? || s.TakeSnapshot? || s.EndBatch? || s.CrashRestart?
  }

  /** The Raft fields of the apply path are those of the server. */
  predicate Shows(t: P.State, n: Node) {
    t.logs == n.logs && t.commitIndex == n.commitIndex
  }

  lemma {:induction false} SpliceKeepsHead(logs: Log, entries: seq<Entry>)
    requires forall k :: 0 <= k < |entries| ==> entries[k].index > FirstIndex(logs)
    ensures Splice(logs, entries)[0] == logs[0]
    decreases |entries|
  {
    if entries != [] && MatchLog(logs, entries[0].term, entries[0].index) {
      SpliceKeepsHead(logs, entries[1..]);
    }
  }

  lemma AppendHead(n: Node, a: AppendRequest)
    requires forall k :: 0 <= k < |a.entries| ==> a.entries[k].index == a.prevIndex + 1 + k
    ensures HandleAppend(n, a).0.logs[0] == n.logs[0] && HandleAppend(n, a).0.commitIndex >= n.commitIndex
    ensures HandleAppend(n, a).0.pending == n.pending && HandleAppend(n, a).0.snapshot == n.snapshot
  {
    hide Splice, ScanBack;
    if a.prevIndex >= FirstIndex(n.logs) {
      SpliceKeepsHead(n.logs, a.entries);
    }
  }

  /** Every other step keeps the log's placeholder, and never moves the commit index back. */
  lemma OtherSteps(c: Cluster, s: Step)
    requires Enabled(c, s) && !OwnStep(s)
    requires s.OnAskAppend? ==> forall k :: 0 <= k < |s.append.entries| ==> s.append.entries[k].index == s.append.prevIndex + 1 + k
    ensures var m, m' := c.nodes[s.p], Do(c, s).nodes[s.p];
            m'.logs[0] == m.logs[0] && m'.commitIndex >= m.commitIndex && m'.snapshot == m.snapshot && m'.lastApplied == m.lastApplied
  {
    hide MedianOf, NextAfter, Splice, HandleAppend;
    match s {
      case OnAskAppend(p, a) =>
        AppendHead(c.nodes[p], a);
        AppendApplied(c.nodes[p], a);
      case _ =>
    }
  }

  lemma AppendApplied(n: Node, a: AppendRequest)
    ensures HandleAppend(n, a).0.lastApplied == n.lastApplied
  {
    hide Splice, ScanBack;
  }

  /** A log that follows, then follows again from the same placeholder, keeps its committed part. */
  lemma CommittedKept(at: P.Committed, n: Node, n': Node, t: P.State)
    requires Follows(at, n) && Follows(at, n') && Shows(t, n)
    requires n'.logs[0] == n.logs[0] && n'.commitIndex >= n.commitIndex
    ensures P.KeepsCommitted(t, n'.logs)
    ensures n'.commitIndex > n.commitIndex ==> P.Enabled(at, t.(logs := n'.logs), P.CommitMoves(n'.commitIndex))
  {
    hide P.Prefix;
    var high := P.BatchHigh(t);
    forall j | 0 <= j < high
      ensures n'.logs[..high][j] == n.logs[..high][j]
    {
      if j > 0 {
        var i := FirstIndex(n.logs) + j;
        assert n.logs[i - FirstIndex(n.logs)] == at(i) == n'.logs[i - FirstIndex(n'.logs)];
      }
    }
    assert n'.logs[..high] == n.logs[..high];
  }

  /**
   * The environment assumed in `Pipeline` is what a server of the cluster does: over the run's
   * committed log, each of its other steps is an enabled LogChanges, followed by an enabled
   * CommitMoves if the commit index moved, and brings only snapshots of that log.
   */
  lemma RaftIsTheEnvironment(at: P.Committed, n: nat, steps: seq<Step>, k: nat, t: P.State)
    requires n > 0 && IsRun(Init(n), steps) && IsDurableRun(Init(n), steps) && FollowsRun(at, n, steps)
    requires k < |steps| && !OwnStep(steps[k]) && steps[k].p < n
    requires Shows(t, Exec(Init(n), steps[..k]).nodes[steps[k].p])
    ensures var n' := Exec(Init(n), steps[..k + 1]).nodes[steps[k].p];
            && P.Enabled(at, t, P.LogChanges(n'.logs))
            && (n'.commitIndex != t.commitIndex ==> P.Enabled(at, t.(logs := n'.logs), P.CommitMoves(n'.commitIndex)))
            && (forall m :: m in n'.pending ==> P.Enabled(at, t, P.SnapshotArrives(m)))
  {
    hide Do, Enabled, Exec, Follows, P.Indexed, P.KeepsCommitted, FollowsAt, Shows;
    var s := steps[k];
    Middle(n, steps, k);
    assert FollowsAt(at, n, steps, k, s.p) && FollowsAt(at, n, steps, k + 1, s.p);
    ReadFollows(at, n, steps, k, s.p);
    ReadFollows(at, n, steps, k + 1, s.p);
    var c := Exec(Init(n), steps[..k]);
    if s.OnAskAppend? {
      Sent(c, s);
      var sent := Bounds.RequestsCarrySuffix(n, steps[..k], s.p, s.append);
    }
    OtherSteps(c, s);
    var n' := Exec(Init(n), steps[..k + 1]).nodes[s.p];
    CommittedKept(at, c.nodes[s.p], n', t);
    PendingOf(at, n');
    ShowsCommit(t, c.nodes[s.p]);
  }

  /** Step k of a run, seen on its own. */
  lemma {:induction false} Middle(n: nat, steps: seq<Step>, k: nat)
    requires IsRun(Init(n), steps) && IsDurableRun(Init(n), steps) && k < |steps|
    ensures IsRun(Init(n), steps[..k]) && IsDurableRun(Init(n), steps[..k]) && Enabled(Exec(Init(n), steps[..k]), steps[k])
    ensures steps[k].p < n && Exec(Init(n), steps[..k + 1]) == Do(Exec(Init(n), steps[..k]), steps[k])
    decreases |steps|
  {
    hide Do;
    var init := steps[..|steps| - 1];
    if k < |steps| - 1 {
      Middle(n, init, k);
      assert init[..k] == steps[..k] && init[..k + 1] == steps[..k + 1];
    } else {
      assert steps[..k + 1] == steps && steps[..k + 1][..k] == steps[..k] == init;
    }
  }

  /** All of Raft's state that the apply path has. */
  predicate Mirrors(t: P.State, n: Node) {
    Shows(t, n) && t.lastApplied == n.lastApplied && t.snapshot == n.snapshot
  }

  /** The apply path's own steps do to Raft's state what the server's handlers do. */
  lemma OwnStepsAgree(n: Node, t: P.State, msg: SnapshotMsg, index: nat, data: seq<Command>)
    requires Mirrors(t, n)
    ensures Mirrors(P.Accept(t, msg), CondInstallSnapshot(n, msg).0)
    ensures CondInstallSnapshot(n, msg).1 <==> P.Accept(t, msg) != t
    ensures Mirrors(P.CutLog(t, index, data), Snapshot(n, index, data))
    ensures t.applier.Delivering? ==> Mirrors(P.Do(t, P.EndBatch), Applied(n, t.applier.upTo))
    ensures Mirrors(P.Do(t, P.Restart(n.stable.logs)), Restart(n))
  {
    hide InstalledLog, Trim;
  }

  lemma ReadFollows(at: P.Committed, n: nat, steps: seq<Step>, k: nat, p: nat)
    requires FollowsAt(at, n, steps, k, p)
    ensures k <= |steps| && p < |Exec(Init(n), steps[..k]).nodes| && Follows(at, Exec(Init(n), steps[..k]).nodes[p])
  {
  }

  lemma Sent(c: Cluster, s: Step)
    requires Enabled(c, s) && s.OnAskAppend?
    ensures AskAppend(s.p, s.append) in c.net
  {
  }

  lemma PendingOf(at: P.Committed, n: Node)
    requires Follows(at, n)
    ensures forall m :: m in n.pending ==> m.data == P.Prefix(at, m.index)
  {
  }

  lemma ShowsCommit(t: P.State, n: Node)
    requires Shows(t, n)
    ensures t.commitIndex == n.commitIndex
  {
  }
}
