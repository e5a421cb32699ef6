/**
 * The whole service: a cluster of Raft servers, each with its apply path, its key map and its
 * duplicate table.  Snapshots travel with the bytes their sender has stored.
 */
module Fleet {
  import opened Types
  import opened LogStore
  import opened Rpc
  import opened Handlers
  import opened KV
  import C = Cluster
  import P = Pipeline
  import R = Replica
  import O = OneLog
  import K = Lockstep
  import M = Median
  import D = Durability
  import Bounds
  import Safety

  /** `sent` is what each snapshot request on the network carries, decoded. */
  datatype Fleet = Fleet(cluster: C.Cluster, replicas: seq<R.Replica>, sent: map<SnapRequest, Machine>)

  /** A step of Raft beside the apply path, or one of the apply path of server p, or its crash. */
  datatype Step =
    | Raft(step: C.Step)
    | TakeBatch(p: nat)
    | Deliver(p: nat, cut: bool)
    | EndBatch(p: nat)
    | Receive(p: nat, msg: SnapshotMsg)
    | Restore(p: nat)
    | Cut(p: nat)
    | Crash(p: nat)

  function Who(s: Step): nat {
    if s.Raft? then s.step.p else s.p
  }

  function Init(n: nat): Fleet {
    Fleet(C.Init(n), seq(n, _ => R.Start()), map[])
  }

  predicate Sized(f: Fleet, n: nat) {
    |f.cluster.nodes| == |f.replicas| == n
  }

  /** The apply path's part of a step. */
  function PathStep(f: Fleet, s: Step): P.Step
    requires !s.Raft? && s.p < |f.cluster.nodes|
  {
    match s
    case TakeBatch(_) => P.TakeBatch
    case Deliver(_, cut) => P.DeliverCommand(cut)
    case EndBatch(_) => P.EndBatch
    case Receive(_, msg) => P.DeliverSnapshot(msg)
    case Restore(_) => P.Restore
    case Cut(_) => P.Cut
    case Crash(p) => P.Restart(f.cluster.nodes[p].stable.logs)
  }

  /** What the path must look like for a step of its own; a crash may come at any time. */
  predicate PathReady(t: P.State, s: P.Step) {
    match s
    case TakeBatch => t.applier.Waiting? && t.lastApplied < t.commitIndex
    case DeliverCommand(_) => P.CanDeliver(t)
    case EndBatch => t.applier.Delivering? && t.applier.delivered >= |t.applier.entries|
    case DeliverSnapshot(msg) => msg in t.pending && t.consumer.Ready?
    case Restore => t.consumer.Restoring?
    case Cut => t.consumer.Cutting?
    case Restart(_) => true
    case _ => false
  }

  predicate Enabled(f: Fleet, s: Step) {
    && Who(s) < |f.cluster.nodes| && |f.replicas| == |f.cluster.nodes|
    && if s.Raft? then C.Enabled(f.cluster, s.step) && !O.OwnStep(s.step)
       else PathReady(f.replicas[s.p].path, PathStep(f, s))
  }

  /** The critical section of Raft that the step runs, if any. */
  function RaftOf(f: Fleet, s: Step): seq<C.Step>
    requires Enabled(f, s)
  {
    match s
    case Raft(step) => [step]
    case EndBatch(p) => [C.EndBatch(p, f.replicas[p].path.applier.upTo)]
    case Receive(p, msg) => [C.Install(p, msg)]
    case Cut(p) => [C.TakeSnapshot(p, f.replicas[p].path.consumer.index)]
    case Crash(p) => [C.CrashRestart(p)]
    case _ => []
  }

  /** The snapshot an accepted request leaves for the service. */
  function Arriving(n: Node, step: C.Step): set<SnapshotMsg> {
    if step.OnAskSnap? && step.snap.term >= n.currentTerm && step.snap.lastIndex > n.commitIndex
    then {SnapshotMsg(step.snap.lastTerm, step.snap.lastIndex, step.snap.data)} else {}
  }

  function Carried(f: Fleet, step: C.Step): Machine {
    if step.OnAskSnap? && step.snap in f.sent then f.sent[step.snap] else Empty
  }

  /** The apply path sees the log, the commit index and any snapshot that Raft's step leaves. */
  function Synced(r: R.Replica, before: Node, after: Node, step: C.Step, image: Machine): R.Replica {
    var r1 := R.Do(r, R.Step(P.LogChanges(after.logs), Empty));
    var r2 := if after.commitIndex != r.path.commitIndex then R.Do(r1, R.Step(P.CommitMoves(after.commitIndex), Empty)) else r1;
    if Arriving(before, step) != {}
    then R.Do(r2, R.Step(P.SnapshotArrives(SnapshotMsg(step.snap.lastTerm, step.snap.lastIndex, step.snap.data)), image))
    else r2
  }

  function SentBy(f: Fleet, step: C.Step): map<SnapRequest, Machine>
    requires step.p < |f.cluster.nodes| && step.p < |f.replicas|
  {
    if step.Replicate? then
      (match ReplicateOneRound(f.cluster.nodes[step.p], step.peer)
       case Snap(a) => f.sent[a := f.replicas[step.p].stored]
       case _ => f.sent)
    else f.sent
  }

  function Do(f: Fleet, s: Step): Fleet
    requires Enabled(f, s)
  {
    var c := C.Exec(f.cluster, RaftOf(f, s));
    if s.Raft? then
      var p := s.step.p;
      var r := Synced(f.replicas[p], f.cluster.nodes[p], c.nodes[p], s.step, Carried(f, s.step));
      Fleet(c, f.replicas[p := r], SentBy(f, s.step))
    else
      Fleet(c, f.replicas[s.p := R.Do(f.replicas[s.p], R.Step(PathStep(f, s), Empty))], f.sent)
  }

  function Exec(n: nat, steps: seq<Step>): (f: Fleet)
    ensures Sized(f, n)
  {
    if steps == [] then Init(n)
    else
      var f := Exec(n, steps[..|steps| - 1]);
      if Enabled(f, Last(steps)) then Do(f, Last(steps)) else f
  }

  predicate IsRun(n: nat, steps: seq<Step>) {
    steps == [] || (IsRun(n, steps[..|steps| - 1]) && Enabled(Exec(n, steps[..|steps| - 1]), Last(steps)))
  }

  /** Raft's steps within the run. */
  function RaftRun(n: nat, steps: seq<Step>): seq<C.Step> {
    if steps == [] then []
    else
      var init := steps[..|steps| - 1];
      RaftRun(n, init) + if Enabled(Exec(n, init), Last(steps)) then RaftOf(Exec(n, init), Last(steps)) else []
  }

  // ---------- The run of Raft within it ----------

  /** Enough of the path to know that Raft is only asked for what it may do. */
  predicate Linked(n: Node, t: P.State) {
    && O.Shows(t, n) && t.pending <= n.pending
    && (t.applier.Delivering? ==>
          t.applier.upTo <= t.commitIndex && forall e :: e in t.applier.entries ==> e.index <= t.applier.upTo)
    && (t.consumer.Cutting? ==> t.consumer.index <= t.commitIndex)
  }

  predicate AllLinked(f: Fleet) {
    |f.replicas| == |f.cluster.nodes| && forall p :: 0 <= p < |f.replicas| ==> Linked(f.cluster.nodes[p], f.replicas[p].path)
  }

  predicate Sound(n: Node) {
    Contiguous(n.logs) && FirstIndex(n.logs) <= n.commitIndex <= LastIndex(n)
  }

  lemma SyncedLinked(f: Fleet, s: C.Step)
    requires Enabled(f, Raft(s)) && Linked(f.cluster.nodes[s.p], f.replicas[s.p].path)
    requires C.Do(f.cluster, s).nodes[s.p].commitIndex >= f.cluster.nodes[s.p].commitIndex
    ensures var n, n' := f.cluster.nodes[s.p], C.Do(f.cluster, s).nodes[s.p];
            Linked(n', Synced(f.replicas[s.p], n, n', s, Carried(f, s)).path)
  {
    hide R.NextMachine, R.NextStored;
    OthersKeepPending(f.cluster, s);
  }

  lemma OthersKeepPending(c: C.Cluster, s: C.Step)
    requires C.Enabled(c, s) && !O.OwnStep(s)
    ensures var n, n' := c.nodes[s.p], C.Do(c, s).nodes[s.p]; n.pending + Arriving(n, s) <= n'.pending
  {
    hide Splice, ScanBack, M.MedianOf, NextAfter, MatchLog;
  }

  /** A step of the path's own asks Raft for something it may do, and both stay in step. */
  lemma OwnLinked(f: Fleet, s: Step)
    requires Enabled(f, s) && !s.Raft? && Linked(f.cluster.nodes[s.p], f.replicas[s.p].path) && Sound(f.cluster.nodes[s.p])
    ensures forall step :: step in RaftOf(f, s) ==> C.Enabled(f.cluster, step)
    ensures var c' := if RaftOf(f, s) == [] then f.cluster else C.Do(f.cluster, RaftOf(f, s)[0]);
            && |c'.nodes| == |f.cluster.nodes|
            && Linked(c'.nodes[s.p], P.Do(f.replicas[s.p].path, PathStep(f, s)))
            && forall q :: 0 <= q < |c'.nodes| && q != s.p ==> c'.nodes[q] == f.cluster.nodes[q]
  {
    hide InstalledLog, Trim, C.ServiceState;
    var t := f.replicas[s.p].path;
    if s.TakeBatch? {
      forall e | e in P.Slice(t.logs, P.BatchLow(t), P.BatchHigh(t))
        ensures e.index <= t.commitIndex
      {
      }
    } else if s.Deliver? {
      assert P.Incoming(t) in t.applier.entries;
    }
  }

  lemma RaftOfOne(f: Fleet, s: Step)
    requires Enabled(f, s)
    ensures |RaftOf(f, s)| <= 1
    ensures forall step :: step in RaftOf(f, s) ==> step.p == Who(s)
  {
  }

  /** One step: Raft's part is a run, and the links hold after it. */
  lemma StepLinked(f: Fleet, s: Step)
    requires Enabled(f, s) && AllLinked(f) && Sound(f.cluster.nodes[Who(s)])
    requires s.Raft? ==> C.Do(f.cluster, s.step).nodes[s.step.p].commitIndex >= f.cluster.nodes[s.step.p].commitIndex
    ensures C.IsRun(f.cluster, RaftOf(f, s)) && AllLinked(Do(f, s))
  {
    hide Linked, C.Do, C.Enabled, C.Exec, C.IsRun, PathReady, Synced, PathStep, P.Do, SentBy;
    if s.Raft? {
      K.One(f.cluster, s.step);
      SyncedLinked(f, s.step);
      OnlyMoves(f.cluster, s.step);
    } else {
      RaftOfOne(f, s);
      OwnLinked(f, s);
      if RaftOf(f, s) == [] {
        K.NoSteps(f.cluster);
      } else {
        assert RaftOf(f, s) == [RaftOf(f, s)[0]];
        K.One(f.cluster, RaftOf(f, s)[0]);
      }
    }
  }

  lemma OnlyMoves(c: C.Cluster, s: C.Step)
    requires C.Enabled(c, s)
    ensures |C.Do(c, s).nodes| == |c.nodes|
    ensures forall q :: 0 <= q < |c.nodes| && q != s.p ==> C.Do(c, s).nodes[q] == c.nodes[q]
  {
    hide HandleAppend, HandleAppendResponse, HandleVoteRequest, HandleVoteResponse, HandleSnap, HandleSnapResponse, Start,
         Snapshot, CondInstallSnapshot, Restart, StartElection, C.ServiceState;
  }

  lemma {:induction false} Projected(n: nat, steps: seq<Step>)
    requires n > 0 && IsRun(n, steps) && C.IsDurableRun(C.Init(n), RaftRun(n, steps))
    ensures C.IsRun(C.Init(n), RaftRun(n, steps)) && Exec(n, steps).cluster == C.Exec(C.Init(n), RaftRun(n, steps))
    ensures AllLinked(Exec(n, steps))
    decreases |steps|
  {
    hide C.Exec, C.IsRun, C.IsDurableRun, Do, Enabled, Linked, RaftOf;
    if steps == [] {
      K.NoSteps(C.Init(n));
      InitLinked(n);
    } else {
      var init, s := steps[..|steps| - 1], Last(steps);
      var f, part := Exec(n, init), RaftOf(Exec(n, init), s);
      DurablePart(C.Init(n), RaftRun(n, init), part);
      Projected(n, init);
      EnabledWho(f, s);
      Bounds.IndicesLegal(n, RaftRun(n, init), Who(s), Who(s));
      Safety.CommitInLog(n, RaftRun(n, init), Who(s));
      MovesOn(n, RaftRun(n, init), f, s);
      StepLinked(f, s);
      K.Chain(C.Init(n), RaftRun(n, init), part);
      DoCluster(f, s);
    }
  }

  lemma InitLinked(n: nat)
    ensures AllLinked(Init(n))
  {
  }

  lemma EnabledWho(f: Fleet, s: Step)
    requires Enabled(f, s)
    ensures Who(s) < |f.cluster.nodes|
  {
  }

  lemma DoCluster(f: Fleet, s: Step)
    requires Enabled(f, s)
    ensures Do(f, s).cluster == C.Exec(f.cluster, RaftOf(f, s))
  {
    hide C.Exec, Synced, SentBy;
  }

  lemma {:induction false} DurablePart(c: C.Cluster, a: seq<C.Step>, b: seq<C.Step>)
    requires C.IsDurableRun(c, a + b)
    ensures C.IsDurableRun(c, a)
    decreases |b|
  {
    hide C.Durable, C.Exec;
    if b == [] {
      assert a + b == a;
    } else {
      assert (a + b)[..|a + b| - 1] == a + b[..|b| - 1];
      DurablePart(c, a, b[..|b| - 1]);
    }
  }

  /** Raft beside the apply path never moves the commit index back. */
  lemma MovesOn(n: nat, run: seq<C.Step>, f: Fleet, s: Step)
    requires n > 0 && C.IsRun(C.Init(n), run) && C.IsDurableRun(C.Init(n), run) && f.cluster == C.Exec(C.Init(n), run)
    requires Enabled(f, s)
    ensures s.Raft? ==> C.Do(f.cluster, s.step).nodes[s.step.p].commitIndex >= f.cluster.nodes[s.step.p].commitIndex
    ensures s.Raft? ==>
              var m, m' := f.cluster.nodes[s.step.p], C.Do(f.cluster, s.step).nodes[s.step.p];
              m'.snapshot == m.snapshot && m'.lastApplied == m.lastApplied
  {
    hide C.Exec, C.IsRun, C.IsDurableRun, C.Do;
    if s.Raft? {
      if s.step.OnAskAppend? {
        var k := Bounds.RequestsCarrySuffix(n, run, s.step.p, s.step.append);
      }
      O.OtherSteps(f.cluster, s.step);
    }
  }

  // ---------- The invariant over the run's committed log ----------

  ghost predicate SnapsSent(f: Fleet) {
    && (forall a :: a in f.sent ==> f.sent[a] == Replay(a.data))
    && (forall to, a :: C.AskSnap(to, a) in f.cluster.net ==> a in f.sent)
  }

  ghost predicate ServerInv(at: P.Committed, n: Node, r: R.Replica) {
    R.Inv(at, r) && O.Mirrors(r.path, n)
  }

  ghost predicate Inv(at: P.Committed, f: Fleet) {
    && |f.replicas| == |f.cluster.nodes| && SnapsSent(f)
    && forall p :: 0 <= p < |f.replicas| ==> ServerInv(at, f.cluster.nodes[p], f.replicas[p])
  }

  /** Raft's step, seen by the path: the environment steps it stands for are allowed. */
  lemma SyncedInv(at: P.Committed, f: Fleet, s: C.Step)
    requires P.Indexed(at) && Enabled(f, Raft(s)) && Inv(at, f)
    requires var n, n', t := f.cluster.nodes[s.p], C.Do(f.cluster, s).nodes[s.p], f.replicas[s.p].path;
             && P.Enabled(at, t, P.LogChanges(n'.logs))
             && (n'.commitIndex != t.commitIndex ==> P.Enabled(at, t.(logs := n'.logs), P.CommitMoves(n'.commitIndex)))
             && (forall m :: m in n'.pending ==> P.Enabled(at, t, P.SnapshotArrives(m)))
             && n'.snapshot == n.snapshot && n'.lastApplied == n.lastApplied
    ensures var n, n' := f.cluster.nodes[s.p], C.Do(f.cluster, s).nodes[s.p];
            ServerInv(at, n', Synced(f.replicas[s.p], n, n', s, Carried(f, s)))
  {
    hide R.Inv, C.Do, P.KeepsCommitted, R.NextMachine, R.NextStored, Replay;
    OnlyMoves(f.cluster, s);
    var n, n', r := f.cluster.nodes[s.p], C.Do(f.cluster, s).nodes[s.p], f.replicas[s.p];
    var step1 := R.Step(P.LogChanges(n'.logs), Empty);
    R.StepOk(at, r, step1);
    var r1 := R.Do(r, step1);
    var r2 := r1;
    if n'.commitIndex != r.path.commitIndex {
      var step2 := R.Step(P.CommitMoves(n'.commitIndex), Empty);
      R.StepOk(at, r1, step2);
      r2 := R.Do(r1, step2);
    }
    if Arriving(n, s) != {} {
      var msg := SnapshotMsg(s.snap.lastTerm, s.snap.lastIndex, s.snap.data);
      OthersKeepPending(f.cluster, s);
      assert msg in n'.pending;
      SentKnown(f, s);
      R.StepOk(at, r2, R.Step(P.SnapshotArrives(msg), Carried(f, s)));
    }
  }

  lemma SentKnown(f: Fleet, s: C.Step)
    requires SnapsSent(f) && C.Enabled(f.cluster, s) && s.OnAskSnap?
    ensures Carried(f, s) == Replay(s.snap.data)
  {
  }

  /** What goes out with a snapshot request is the replay of what the request stands for. */
  lemma SnapsStay(at: P.Committed, f: Fleet, s: C.Step)
    requires Enabled(f, Raft(s)) && Inv(at, f)
    ensures var f' := f.(cluster := C.Do(f.cluster, s), sent := SentBy(f, s)); SnapsSent(f')
  {
    hide P.Inv, Replay, GenAppend, Start, StartElection, HandleVoteRequest, HandleVoteResponse, HandleAppend,
         HandleAppendResponse, HandleSnap, HandleSnapResponse, CondInstallSnapshot, Snapshot, Applied, Restart, C.ServiceState;
    assert ServerInv(at, f.cluster.nodes[s.p], f.replicas[s.p]);
  }

  /** The path's own step and the handler it calls do the same to Raft's state. */
  lemma OwnInv(at: P.Committed, f: Fleet, s: Step)
    requires P.Indexed(at) && Enabled(f, s) && !s.Raft? && ServerInv(at, f.cluster.nodes[s.p], f.replicas[s.p])
    requires f.cluster.nodes[s.p].stable.logs <= f.cluster.nodes[s.p].logs
    ensures var c' := if RaftOf(f, s) == [] then f.cluster else C.Do(f.cluster, RaftOf(f, s)[0]);
            && |c'.nodes| == |f.cluster.nodes| && c'.net == f.cluster.net
            && ServerInv(at, c'.nodes[s.p], R.Do(f.replicas[s.p], R.Step(PathStep(f, s), Empty)))
            && forall q :: 0 <= q < |c'.nodes| && q != s.p ==> c'.nodes[q] == f.cluster.nodes[q]
  {
    hide R.Inv, P.Inv, InstalledLog, Trim, R.NextMachine, R.NextStored, Restart, CondInstallSnapshot, Snapshot, Applied,
         P.Accept, P.CutLog,
         P.TakeBatchOf, P.Deliver;
    var n, r := f.cluster.nodes[s.p], f.replicas[s.p];
    var t := r.path;
    R.StepOk(at, r, R.Step(PathStep(f, s), Empty));
    match s {
      case Receive(_, msg) => AcceptMirrors(n, t, msg);
      case Cut(_) =>
        PathInv(at, r);
        P.CutIsService(at, t);
        CutMirrors(n, t);
      case EndBatch(_) => EndMirrors(n, t);
      case Crash(_) => O.OwnStepsAgree(n, t, SnapshotMsg(0, 0, []), 0, []);
      case TakeBatch(_) => BatchMirrors(n, t);
      case Deliver(_, cut) => DeliverMirrors(n, t, cut);
      case Restore(_) =>
    }
  }

  lemma PathInv(at: P.Committed, r: R.Replica)
    requires R.Inv(at, r)
    ensures P.Inv(at, r.path)
  {
  }

  lemma AcceptMirrors(n: Node, t: P.State, msg: SnapshotMsg)
    requires O.Mirrors(t, n)
    ensures O.Mirrors(P.Do(t, P.DeliverSnapshot(msg)), CondInstallSnapshot(n, msg).0)
  {
    hide InstalledLog;
  }

  lemma CutMirrors(n: Node, t: P.State)
    requires O.Mirrors(t, n) && t.consumer.Cutting?
    requires var k := t.consumer.index + 1 - FirstIndex(t.logs);
             1 <= k <= |t.logs| && t.consumer.data == t.snapshot + Commands(t.logs[1..k])
    ensures O.Mirrors(P.Do(t, P.Cut), Snapshot(n, t.consumer.index, C.ServiceState(n, t.consumer.index)))
  {
    hide Trim, Commands;
  }

  lemma EndMirrors(n: Node, t: P.State)
    requires O.Mirrors(t, n) && t.applier.Delivering?
    ensures O.Mirrors(P.Do(t, P.EndBatch), Applied(n, t.applier.upTo))
  {
  }

  lemma BatchMirrors(n: Node, t: P.State)
    requires O.Mirrors(t, n)
    ensures O.Mirrors(P.Do(t, P.TakeBatch), n)
  {
  }

  lemma DeliverMirrors(n: Node, t: P.State, cut: bool)
    requires O.Mirrors(t, n)
    ensures O.Mirrors(P.Do(t, P.DeliverCommand(cut)), n)
  {
  }

  lemma StepInv(at: P.Committed, f: Fleet, s: Step)
    requires P.Indexed(at) && Enabled(f, s) && Inv(at, f)
    requires f.cluster.nodes[Who(s)].stable.logs <= f.cluster.nodes[Who(s)].logs
    requires C.IsRun(f.cluster, RaftOf(f, s))
    requires s.Raft? ==>
               var n, n', t := f.cluster.nodes[s.step.p], C.Do(f.cluster, s.step).nodes[s.step.p], f.replicas[s.step.p].path;
               && P.Enabled(at, t, P.LogChanges(n'.logs))
               && (n'.commitIndex != t.commitIndex ==> P.Enabled(at, t.(logs := n'.logs), P.CommitMoves(n'.commitIndex)))
               && (forall m :: m in n'.pending ==> P.Enabled(at, t, P.SnapshotArrives(m)))
               && n'.snapshot == n.snapshot && n'.lastApplied == n.lastApplied
    ensures Inv(at, Do(f, s))
  {
    hide ServerInv, C.Do, C.Enabled, C.Exec, C.IsRun, PathReady, Synced, PathStep, P.Do, SentBy, SnapsSent, P.Enabled, R.Do;
    if s.Raft? {
      K.One(f.cluster, s.step);
      SyncedInv(at, f, s.step);
      SnapsStay(at, f, s.step);
      OnlyMoves(f.cluster, s.step);
      SameSnaps(f.(cluster := C.Do(f.cluster, s.step), sent := SentBy(f, s.step)), Do(f, s));
    } else {
      RaftOfOne(f, s);
      OwnInv(at, f, s);
      if RaftOf(f, s) == [] {
        K.NoSteps(f.cluster);
      } else {
        assert RaftOf(f, s) == [RaftOf(f, s)[0]];
        OneStep(f.cluster, RaftOf(f, s)[0]);
      }
      SameSnaps(f, Do(f, s));
    }
  }

  lemma OneStep(c: C.Cluster, s: C.Step)
    requires C.IsRun(c, [s])
    ensures s.p < |c.nodes| && C.Exec(c, [s]) == C.Do(c, s)
  {
    hide C.Do;
    K.NoSteps(c);
    assert [s][..|[s]| - 1] == [] && Last([s]) == s;
  }

  lemma SameSnaps(f: Fleet, f': Fleet)
    requires SnapsSent(f) && f'.cluster.net == f.cluster.net && f'.sent == f.sent
    ensures SnapsSent(f')
  {
  }

  lemma InitInv(at: P.Committed, n: nat)
    ensures Inv(at, Init(n))
  {
    P.InitOk(at);
  }

  /** Over the committed log of a longer run of Raft, every moment of the fleet is in order. */
  lemma {:induction false} RunInv(at: P.Committed, n: nat, all: seq<C.Step>, steps: seq<Step>)
    requires n > 0 && IsRun(n, steps) && C.IsRun(C.Init(n), all) && C.IsDurableRun(C.Init(n), all) && O.FollowsRun(at, n, all)
    requires RaftRun(n, steps) <= all
    ensures Inv(at, Exec(n, steps))
    decreases |steps|
  {
    hide C.Exec, C.IsRun, C.IsDurableRun, Do, Enabled, Inv, RaftOf, O.FollowsRun, C.Do, P.Enabled, C.Durable;
    if steps == [] {
      InitInv(at, n);
    } else {
      var init, s := steps[..|steps| - 1], Last(steps);
      var f, run := Exec(n, init), RaftRun(n, init);
      EnabledWho(f, s);
      RunInv(at, n, all, init);
      assert run + all[|run|..] == all;
      DurablePart(C.Init(n), run, all[|run|..]);
      Projected(n, init);
      D.StoredIsPrefix(n, run);
      MovesOn(n, run, f, s);
      Stored(f.cluster, Who(s));
      PartRuns(at, n, all, run, f, s);
      StepInv(at, f, s);
    }
  }

  lemma Stored(c: C.Cluster, p: nat)
    requires D.Stored(c) && p < |c.nodes|
    ensures c.nodes[p].stable.logs <= c.nodes[p].logs
  {
  }

  /** The next part of the longer run. */
  lemma PartRuns(at: P.Committed, n: nat, all: seq<C.Step>, run: seq<C.Step>, f: Fleet, s: Step)
    requires n > 0 && C.IsRun(C.Init(n), all) && C.IsDurableRun(C.Init(n), all) && O.FollowsRun(at, n, all)
    requires Enabled(f, s) && run + RaftOf(f, s) <= all && f.cluster == C.Exec(C.Init(n), run) && Inv(at, f) && Sized(f, n)
    ensures P.Indexed(at) && C.IsRun(f.cluster, RaftOf(f, s))
    ensures s.Raft? ==>
              var n', t := C.Do(f.cluster, s.step).nodes[s.step.p], f.replicas[s.step.p].path;
              && P.Enabled(at, t, P.LogChanges(n'.logs))
              && (n'.commitIndex != t.commitIndex ==> P.Enabled(at, t.(logs := n'.logs), P.CommitMoves(n'.commitIndex)))
              && (forall m :: m in n'.pending ==> P.Enabled(at, t, P.SnapshotArrives(m)))
  {
    hide C.Exec, C.IsRun, C.IsDurableRun, C.Do, C.Enabled, P.Enabled, R.Inv, P.Indexed, SnapsSent;
    RaftOfOne(f, s);
    var part := RaftOf(f, s);
    assert P.Indexed(at);
    if part == [] {
      K.NoSteps(f.cluster);
    } else {
      var k := |run|;
      assert part == [part[0]];
      assert all[..k] == run && all[k] == part[0];
      O.Middle(n, all, k);
      K.One(f.cluster, part[0]);
      if s.Raft? {
        assert ServerInv(at, f.cluster.nodes[s.step.p], f.replicas[s.step.p]);
        O.RaftIsTheEnvironment(at, n, all, k, f.replicas[s.step.p].path);
      }
    }
  }

  lemma {:induction false} RaftRunGrows(n: nat, steps: seq<Step>, more: seq<Step>)
    requires IsRun(n, steps + more)
    ensures IsRun(n, steps) && RaftRun(n, steps) <= RaftRun(n, steps + more)
    decreases |more|
  {
    hide Do, Enabled, RaftOf;
    if more == [] {
      assert steps + more == steps;
    } else {
      var init := more[..|more| - 1];
      assert (steps + more)[..|steps + more| - 1] == steps + init;
      RaftRunGrows(n, steps, init);
    }
  }

  /**
   * The replicated service: in one durable run of the whole system, servers p and q, at the same
   * or at different moments, that have applied equally much hold the same key map and the same
   * duplicate table, whatever either has compacted, installed from the other, or lost in a crash.
   */
  lemma ServersAgree(n: nat, steps: seq<Step>, more: seq<Step>, p: nat, q: nat)
    requires n > 0 && p < n && q < n && IsRun(n, steps + more) && C.IsDurableRun(C.Init(n), RaftRun(n, steps + more))
    requires var a, b := Exec(n, steps).replicas[p], Exec(n, steps + more).replicas[q];
             |a.path.service| == |b.path.service|
    ensures Exec(n, steps).replicas[p].machine == Exec(n, steps + more).replicas[q].machine
  {
    hide Exec, IsRun, C.IsDurableRun, C.IsRun, RaftRun, R.Inv, O.FollowsRun;
    RaftRunGrows(n, steps, more);
    Projected(n, steps + more);
    var all := RaftRun(n, steps + more);
    var at := O.OneCommittedLog(n, all);
    RunInv(at, n, all, steps);
    RunInv(at, n, all, steps + more);
    var a, b := Exec(n, steps).replicas[p], Exec(n, steps + more).replicas[q];
    assert ServerInv(at, Exec(n, steps).cluster.nodes[p], a) && ServerInv(at, Exec(n, steps + more).cluster.nodes[q], b);
    MachineIs(at, a);
    MachineIs(at, b);
  }

  lemma MachineIs(at: P.Committed, r: R.Replica)
    requires R.Inv(at, r)
    ensures r.machine == Replay(P.Prefix(at, |r.path.service|))
  {
    hide Replay, P.Prefix;
    R.ServiceIsPrefix(at, r.path);
  }
}
