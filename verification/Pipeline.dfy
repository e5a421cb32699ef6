/**
 * One server's apply path: Raft's applier goroutine, the goroutines that hand over received
 * snapshots, and the service's consumer loop, which share one unbuffered channel
 * (lab2/lab2C+D/raft.go:122-176,283-323,399-432 and lab3/server.go:95-183).
 *
 * `at` is the committed log, one entry for each index for ever (what `Safety` proves of the
 * cluster); the rest of Raft is an environment that may replace anything above the commit
 * index, commit more, and receive snapshots.  The service state is represented by the
 * commands that made it.
 */
module Pipeline {
  import opened Types
  import opened LogStore
  import opened Rpc

  type Committed = nat -> Entry

  /** The applier: waiting, or delivering entries next..upTo of a slice it has copied. */
  datatype Applier = Waiting | Delivering(entries: seq<Entry>, delivered: nat, upTo: nat)

  /** The consumer: ready, about to call Snapshot, or about to restore a snapshot Raft accepted. */
  datatype Consumer = Ready | Cutting(index: nat, data: seq<Command>) | Restoring(msg: SnapshotMsg)

  datatype State = State(
    logs: Log,
    commitIndex: nat,
    lastApplied: nat,
    snapshot: seq<Command>,
    pending: set<SnapshotMsg>,
    applier: Applier,
    consumer: Consumer,
    kvLastApplied: nat,
    service: seq<Command>
  )

  datatype Step =
    | LogChanges(logs: Log)
    | CommitMoves(index: nat)
    | SnapshotArrives(msg: SnapshotMsg)
    | TakeBatch
    | DeliverCommand(cut: bool)
    | EndBatch
    | DeliverSnapshot(msg: SnapshotMsg)
    | Restore
    | Cut
    | Restart(logs: Log)

  function Prefix(at: Committed, n: nat): (cs: seq<Command>)
    ensures |cs| == n
  {
    seq(n, i requires 0 <= i < n => at(i + 1).command)
  }

  function Init(): State {
    State([Placeholder], 0, 0, [], {}, Waiting, Ready, 0, [])
  }

  /** A slice of the log; the source panics unless 0 <= lo <= hi <= |logs|. */
  function Slice(logs: Log, lo: int, hi: int): seq<Entry> {
    if 0 <= lo <= hi <= |logs| then logs[lo..hi] else []
  }

  function BatchLow(s: State): int {
    s.lastApplied + 1 - FirstIndex(s.logs)
  }

  function BatchHigh(s: State): int {
    s.commitIndex + 1 - FirstIndex(s.logs)
  }

  /** The log keeps its placeholder and everything up to the commit index. */
  predicate KeepsCommitted(s: State, logs: Log) {
    && Contiguous(logs) && FirstIndex(logs) == FirstIndex(s.logs)
    && BatchHigh(s) <= |logs| && BatchHigh(s) <= |s.logs| && 0 <= BatchHigh(s)
    && logs[..BatchHigh(s)] == s.logs[..BatchHigh(s)]
  }

  predicate Enabled(at: Committed, s: State, step: Step) {
    match step
    case LogChanges(logs) => KeepsCommitted(s, logs)
    case CommitMoves(index) =>
      && s.commitIndex < index < FirstIndex(s.logs) + |s.logs|
      && forall i :: s.commitIndex < i <= index ==> InLog(s.logs, i) && s.logs[i - FirstIndex(s.logs)] == at(i)
    case SnapshotArrives(msg) => msg.data == Prefix(at, msg.index)
    case TakeBatch => s.applier.Waiting? && s.lastApplied < s.commitIndex
    case DeliverCommand(_) => CanDeliver(s)
    case EndBatch => s.applier.Delivering? && s.applier.delivered >= |s.applier.entries|
    case DeliverSnapshot(msg) => msg in s.pending && s.consumer.Ready?
    case Restore => s.consumer.Restoring?
    case Cut => s.consumer.Cutting?
    case Restart(logs) => |logs| <= |s.logs| && logs == s.logs[..|logs|]
  }

  function Do(s: State, step: Step): State {
    match step
    case LogChanges(logs) => s.(logs := logs)
    case CommitMoves(index) => s.(commitIndex := index)
    case SnapshotArrives(msg) => s.(pending := s.pending + {msg})
    case TakeBatch => TakeBatchOf(s)
    case DeliverCommand(cut) => if CanDeliver(s) then Deliver(s, cut) else s
    case EndBatch =>
      if s.applier.Delivering? then s.(lastApplied := Max(s.lastApplied, s.applier.upTo), applier := Waiting) else s
    case DeliverSnapshot(msg) => Accept(s.(pending := s.pending - {msg}), msg)
    case Restore =>
      if s.consumer.Restoring?
      then s.(service := s.consumer.msg.data, kvLastApplied := s.consumer.msg.index, consumer := Ready) else s
    case Cut => if s.consumer.Cutting? then CutLog(s, s.consumer.index, s.consumer.data) else s
    case Restart(logs) =>
      State(logs, FirstIndex(logs), FirstIndex(logs), s.snapshot, {}, Waiting, Ready, 0, s.snapshot)
  }

  function TakeBatchOf(s: State): State {
    s.(applier := Delivering(Slice(s.logs, BatchLow(s), BatchHigh(s)), 0, s.commitIndex))
  }

  predicate CanDeliver(s: State) {
    s.applier.Delivering? && s.applier.delivered < |s.applier.entries| && s.consumer.Ready?
  }

  /** The entry the consumer is about to receive. */
  function Incoming(s: State): Entry
    requires CanDeliver(s)
  {
    s.applier.entries[s.applier.delivered]
  }

  /** One command through the channel; `cut` says whether the service then wants a snapshot. */
  function Deliver(s: State, cut: bool): State
    requires CanDeliver(s)
  {
    var e := Incoming(s);
    var s1 := s.(applier := s.applier.(delivered := s.applier.delivered + 1));
    if e.index <= s.kvLastApplied then s1
    else
      var service := s.service + [e.command];
      s1.(kvLastApplied := e.index, service := service, consumer := if cut then Cutting(e.index, service) else Ready)
  }

  /** CondInstallSnapshot, as the consumer calls it. */
  function Accept(s: State, msg: SnapshotMsg): State {
    if msg.index <= s.commitIndex then s
    else s.(logs := InstalledLog(s.logs, msg.term, msg.index), commitIndex := msg.index, lastApplied := msg.index,
            snapshot := msg.data, consumer := Restoring(msg))
  }

  /** Snapshot, as the consumer calls it. */
  function CutLog(s: State, index: nat, data: seq<Command>): State {
    var s1 := s.(consumer := Ready);
    if index <= FirstIndex(s.logs) then s1
    else s1.(logs := Trim(s.logs, index), snapshot := data)
  }

  // ---------- The invariant ----------

  /** The index the service state is at, counting a restore that Raft has already accepted. */
  function AppliedIndex(s: State): nat {
    if s.consumer.Restoring? then s.consumer.msg.index else |s.service|
  }

  ghost predicate RaftOk(at: Committed, s: State) {
    && Contiguous(s.logs)
    && FirstIndex(s.logs) <= s.commitIndex < FirstIndex(s.logs) + |s.logs|
    && (forall i :: FirstIndex(s.logs) < i <= s.commitIndex ==> s.logs[i - FirstIndex(s.logs)] == at(i))
    && s.snapshot == Prefix(at, FirstIndex(s.logs))
    && (forall m :: m in s.pending ==> m.data == Prefix(at, m.index))
    && FirstIndex(s.logs) <= AppliedIndex(s) <= s.commitIndex
    && s.lastApplied <= s.commitIndex
  }

  ghost predicate ServiceOk(at: Committed, s: State) {
    && s.service == Prefix(at, |s.service|)
    && s.kvLastApplied <= |s.service|
    && (s.consumer.Cutting? ==> s.consumer.index == |s.service| && s.consumer.data == s.service)
    && (s.consumer.Restoring? ==> s.consumer.msg.data == Prefix(at, s.consumer.msg.index) && |s.service| < s.consumer.msg.index)
  }

  /**
   * A waiting applier stands where the service stands.  A delivering one is either in step with
   * the service, or a snapshot has carried the service past the whole batch.
   */
  ghost predicate ApplierOk(at: Committed, s: State) {
    match s.applier
    case Waiting => s.lastApplied == AppliedIndex(s)
    case Delivering(entries, delivered, upTo) =>
      && delivered <= |entries| <= upTo <= s.commitIndex
      && (forall k :: 0 <= k < |entries| ==> entries[k] == at(upTo - |entries| + 1 + k))
      && ((AppliedIndex(s) == upTo - |entries| + delivered && s.lastApplied <= upTo)
          || (AppliedIndex(s) == s.lastApplied > upTo && (s.consumer.Restoring? || s.kvLastApplied >= upTo)))
  }

  ghost predicate Inv(at: Committed, s: State) {
    RaftOk(at, s) && ServiceOk(at, s) && ApplierOk(at, s)
  }

  ghost predicate Indexed(at: Committed) {
    forall i :: at(i).index == i
  }

  lemma InitOk(at: Committed)
    ensures Inv(at, Init())
  {
  }

  lemma LogChangesRaft(at: Committed, s: State, logs: Log)
    requires RaftOk(at, s) && KeepsCommitted(s, logs)
    ensures RaftOk(at, s.(logs := logs))
  {
    hide Prefix;
    var high := BatchHigh(s);
    forall i | FirstIndex(logs) < i <= s.commitIndex
      ensures logs[i - FirstIndex(logs)] == at(i)
    {
      var j := i - FirstIndex(logs);
      assert logs[j] == logs[..high][j] == s.logs[..high][j] == s.logs[j];
    }
  }

  lemma LogChangesOk(at: Committed, s: State, logs: Log)
    requires Inv(at, s) && KeepsCommitted(s, logs)
    ensures Inv(at, s.(logs := logs))
  {
    hide Prefix, RaftOk, KeepsCommitted;
    LogChangesRaft(at, s, logs);
  }

  /** The applier's slice is in bounds and is exactly the committed entries not yet applied. */
  lemma BatchInBounds(at: Committed, s: State)
    requires Inv(at, s) && Enabled(at, s, TakeBatch)
    ensures 0 < BatchLow(s) < BatchHigh(s) <= |s.logs|
    ensures var batch := Slice(s.logs, BatchLow(s), BatchHigh(s));
            && |batch| == s.commitIndex - s.lastApplied
            && forall k :: 0 <= k < |batch| ==> batch[k] == at(s.lastApplied + 1 + k)
  {
  }

  lemma TakeBatchOk(at: Committed, s: State)
    requires Inv(at, s) && Enabled(at, s, TakeBatch)
    ensures Inv(at, TakeBatchOf(s))
  {
    hide Prefix, Contiguous, Slice, BatchLow, BatchHigh;
    BatchInBounds(at, s);
  }

  lemma PrefixGrows(at: Committed, n: nat)
    ensures Prefix(at, n) + [at(n + 1).command] == Prefix(at, n + 1)
  {
  }

  lemma DeliverOk(at: Committed, s: State, cut: bool)
    requires Indexed(at) && Inv(at, s) && CanDeliver(s)
    ensures Inv(at, Deliver(s, cut))
  {
    hide Prefix, Contiguous;
    var s' := Deliver(s, cut);
    assert Incoming(s) == at(s.applier.upTo - |s.applier.entries| + 1 + s.applier.delivered);
    PrefixGrows(at, |s.service|);
  }

  lemma AcceptOk(at: Committed, s: State, msg: SnapshotMsg)
    requires Inv(at, s) && msg in s.pending && s.consumer.Ready?
    ensures Inv(at, Accept(s.(pending := s.pending - {msg}), msg))
  {
    hide Prefix, InstalledLog, Contiguous;
    InstallKeeps(s.logs, msg.term, msg.index);
  }

  lemma InstallKeeps(logs: Log, term: nat, k: nat)
    requires Contiguous(logs)
    ensures Contiguous(InstalledLog(logs, term, k)) && FirstIndex(InstalledLog(logs, term, k)) == k
  {
  }

  lemma CutOk(at: Committed, s: State)
    requires Inv(at, s) && s.consumer.Cutting?
    ensures Inv(at, CutLog(s, s.consumer.index, s.consumer.data))
  {
    hide Prefix, Trim, Contiguous;
    if s.consumer.index > FirstIndex(s.logs) {
      TrimKeeps(s.logs, s.consumer.index);
    }
  }

  lemma TrimKeeps(logs: Log, k: nat)
    requires Contiguous(logs) && FirstIndex(logs) < k < FirstIndex(logs) + |logs|
    ensures var t := Trim(logs, k);
            && Contiguous(t) && FirstIndex(t) == k && |t| == |logs| - (k - FirstIndex(logs))
            && forall j :: 0 < j < |t| ==> t[j] == logs[j + k - FirstIndex(logs)]
  {
  }

  lemma RestartOk(at: Committed, s: State, logs: Log)
    requires Inv(at, s) && |logs| <= |s.logs| && logs == s.logs[..|logs|]
    ensures Inv(at, Do(s, Restart(logs)))
  {
  }

  lemma CommitMovesOk(at: Committed, s: State, index: nat)
    requires Inv(at, s) && Enabled(at, s, CommitMoves(index))
    ensures Inv(at, s.(commitIndex := index))
  {
    hide Prefix, Contiguous;
  }

  lemma StepOk(at: Committed, s: State, step: Step)
    requires Indexed(at) && Inv(at, s) && Enabled(at, s, step)
    ensures Inv(at, Do(s, step))
  {
    hide Prefix, Inv, Deliver, Accept, CutLog, TakeBatchOf, KeepsCommitted, Slice;
    match step {
      case LogChanges(logs) => LogChangesOk(at, s, logs);
      case TakeBatch => TakeBatchOk(at, s);
      case DeliverCommand(cut) => DeliverOk(at, s, cut);
      case DeliverSnapshot(msg) => AcceptOk(at, s, msg);
      case Cut => CutOk(at, s);
      case Restart(logs) => RestartOk(at, s, logs);
      case CommitMoves(index) => CommitMovesOk(at, s, index);
      case SnapshotArrives(msg) => ArrivesOk(at, s, msg);
      case EndBatch => EndBatchOk(at, s);
      case Restore => RestoreOk(at, s);
    }
  }

  lemma ArrivesOk(at: Committed, s: State, msg: SnapshotMsg)
    requires Inv(at, s) && msg.data == Prefix(at, msg.index)
    ensures Inv(at, s.(pending := s.pending + {msg}))
  {
    hide Prefix, Contiguous;
  }

  lemma EndBatchOk(at: Committed, s: State)
    requires Inv(at, s) && Enabled(at, s, EndBatch)
    ensures Inv(at, Do(s, EndBatch))
  {
    hide Prefix, Contiguous;
  }

  lemma RestoreOk(at: Committed, s: State)
    requires Inv(at, s) && Enabled(at, s, Restore)
    ensures Inv(at, Do(s, Restore))
  {
    hide Prefix, Contiguous;
  }

  // ---------- Every run ----------

  function Exec(at: Committed, s: State, steps: seq<Step>): State
    decreases |steps|
  {
    if steps == [] then s else Do(Exec(at, s, steps[..|steps| - 1]), Last(steps))
  }

  predicate IsRun(at: Committed, s: State, steps: seq<Step>)
    decreases |steps|
  {
    steps == [] ||
    (IsRun(at, s, steps[..|steps| - 1]) && Enabled(at, Exec(at, s, steps[..|steps| - 1]), Last(steps)))
  }

  lemma {:induction false} RunOk(at: Committed, steps: seq<Step>)
    requires Indexed(at) && IsRun(at, Init(), steps)
    ensures Inv(at, Exec(at, Init(), steps))
    decreases |steps|
  {
    hide Do, Enabled, Inv, Indexed;
    if steps == [] {
      InitOk(at);
    } else {
      RunOk(at, steps[..|steps| - 1]);
      StepOk(at, Exec(at, Init(), steps[..|steps| - 1]), Last(steps));
    }
  }

  /**
   * In every reachable state the service holds exactly the first commands of the committed log:
   * each once, in order, none missing, whichever came from a snapshot.
   */
  lemma AppliesExactly(at: Committed, steps: seq<Step>)
    requires Indexed(at) && IsRun(at, Init(), steps)
    ensures var s := Exec(at, Init(), steps);
            s.service == Prefix(at, |s.service|) && |s.service| <= s.commitIndex
  {
    hide Exec, IsRun;
    RunOk(at, steps);
  }

  /** The applier never slices outside the log, and takes exactly what follows lastApplied. */
  lemma SliceInBounds(at: Committed, steps: seq<Step>)
    requires Indexed(at) && IsRun(at, Init(), steps) && Enabled(at, Exec(at, Init(), steps), TakeBatch)
    ensures var s := Exec(at, Init(), steps);
            var batch := Do(s, TakeBatch).applier.entries;
            && 0 < BatchLow(s) < BatchHigh(s) <= |s.logs|
            && |batch| == s.commitIndex - s.lastApplied
            && forall k :: 0 <= k < |batch| ==> batch[k] == at(s.lastApplied + 1 + k)
  {
    hide Exec, IsRun;
    RunOk(at, steps);
    BatchInBounds(at, Exec(at, Init(), steps));
  }

  /**
   * A command that reaches the service is discarded exactly when the service already covers its
   * index (even after a restart, when the server's own counter starts at 0 again); otherwise it
   * is the very next one, and if the log has grown too large the state just reached is cut.
   */
  lemma DeliveredOnce(at: Committed, steps: seq<Step>, cut: bool)
    requires Indexed(at) && IsRun(at, Init(), steps) && Enabled(at, Exec(at, Init(), steps), DeliverCommand(cut))
    ensures var s := Exec(at, Init(), steps);
            var s' := Do(s, DeliverCommand(cut));
            && s'.applier == s.applier.(delivered := s.applier.delivered + 1)
            && if Incoming(s).index <= |s.service| then s' == s.(applier := s'.applier)
               else
                 && Incoming(s) == at(|s.service| + 1) && s'.service == s.service + [at(|s.service| + 1).command]
                 && s'.kvLastApplied == |s'.service|
                 && s'.consumer == if cut then Cutting(|s'.service|, s'.service) else Ready
  {
    hide Exec, IsRun, Prefix, Contiguous;
    RunOk(at, steps);
  }

  /**
   * A received snapshot is taken in exactly if it covers more than is committed: Raft's log then
   * begins at it, and the service, once it has restored it, holds it and counts on from there.
   */
  lemma SnapshotTaken(at: Committed, steps: seq<Step>, msg: SnapshotMsg)
    requires Indexed(at) && IsRun(at, Init(), steps) && Enabled(at, Exec(at, Init(), steps), DeliverSnapshot(msg))
    ensures var s := Exec(at, Init(), steps);
            var s' := Do(s, DeliverSnapshot(msg));
            && s'.pending == s.pending - {msg} && s'.service == s.service && s'.applier == s.applier
            && if msg.index <= s.commitIndex then s' == s.(pending := s'.pending)
               else
                 && s'.commitIndex == s'.lastApplied == msg.index == FirstIndex(s'.logs) && s'.snapshot == msg.data
                 && Enabled(at, s', Restore)
                 && var s'' := Do(s', Restore);
                    s''.service == msg.data == Prefix(at, msg.index) && s''.kvLastApplied == msg.index && s''.consumer == Ready
  {
    hide Exec, IsRun, Prefix, Contiguous;
    RunOk(at, steps);
    TakenPrefix(at, Exec(at, Init(), steps), msg);
  }

  lemma TakenPrefix(at: Committed, s: State, msg: SnapshotMsg)
    requires Inv(at, s) && msg in s.pending
    ensures msg.data == Prefix(at, msg.index)
  {
  }

  /** Between restarts the service only ever moves forward. */
  lemma {:induction false} NeverRollsBack(at: Committed, steps: seq<Step>, more: seq<Step>)
    requires Indexed(at) && IsRun(at, Init(), steps + more) && forall k :: 0 <= k < |more| ==> !more[k].Restart?
    ensures Exec(at, Init(), steps).service <= Exec(at, Init(), steps + more).service
    decreases |more|
  {
    hide Do, Enabled, Indexed;
    if more == [] {
      assert steps + more == steps;
    } else {
      var init := more[..|more| - 1];
      assert (steps + more)[..|steps + more| - 1] == steps + init;
      NeverRollsBack(at, steps, init);
      RunOk(at, steps + init);
      StepForward(at, Exec(at, Init(), steps + init), Last(more));
    }
  }

  lemma StepForward(at: Committed, s: State, step: Step)
    requires Indexed(at) && Inv(at, s) && Enabled(at, s, step) && !step.Restart?
    ensures s.service <= Do(s, step).service
  {
    hide Contiguous, Trim, InstalledLog;
    if step.Restore? {
      PrefixesNest(at, |s.service|, s.consumer.msg.index);
    }
  }

  lemma PrefixesNest(at: Committed, m: nat, n: nat)
    requires m <= n
    ensures Prefix(at, m) <= Prefix(at, n)
  {
    assert Prefix(at, n)[..m] == Prefix(at, m);
  }

  /** When the applier and the service have nothing left to do, everything committed is applied. */
  lemma IdleMeansCurrent(at: Committed, steps: seq<Step>)
    requires Indexed(at) && IsRun(at, Init(), steps)
    requires var s := Exec(at, Init(), steps);
             s.applier.Waiting? && !Enabled(at, s, TakeBatch) && s.consumer.Ready?
    ensures Exec(at, Init(), steps).service == Prefix(at, Exec(at, Init(), steps).commitIndex)
  {
    hide Exec, IsRun;
    RunOk(at, steps);
  }

  lemma CutIsService(at: Committed, s: State)
    requires Inv(at, s) && s.consumer.Cutting?
    ensures var k := s.consumer.index + 1 - FirstIndex(s.logs);
            && s.consumer.index <= s.commitIndex && 1 <= k <= |s.logs|
            && s.consumer.data == s.snapshot + Commands(s.logs[1..k])
  {
    var first := FirstIndex(s.logs);
    var k := s.consumer.index + 1 - first;
    var rest := Commands(s.logs[1..k]);
    forall j | 0 <= j < |rest|
      ensures rest[j] == at(first + 1 + j).command
    {
      assert s.logs[1..k][j] == s.logs[first + 1 + j - first];
    }
  }

  /**
   * The snapshot the service hands to Raft covers only committed entries, and is the state that
   * Raft's stored snapshot and committed log give: what `Cluster` lets a server compact with.
   */
  lemma CutsAreSound(at: Committed, steps: seq<Step>)
    requires Indexed(at) && IsRun(at, Init(), steps) && Exec(at, Init(), steps).consumer.Cutting?
    ensures var s := Exec(at, Init(), steps);
            var k := s.consumer.index + 1 - FirstIndex(s.logs);
            && s.consumer.index <= s.commitIndex && 1 <= k <= |s.logs|
            && s.consumer.data == s.snapshot + Commands(s.logs[1..k])
  {
    hide Exec, IsRun, Inv;
    RunOk(at, steps);
    CutIsService(at, Exec(at, Init(), steps));
  }

  /** A restart puts the service at the stored snapshot, which is where Raft resumes. */
  lemma RestartResumes(at: Committed, steps: seq<Step>, logs: Log)
    requires Indexed(at) && IsRun(at, Init(), steps) && Enabled(at, Exec(at, Init(), steps), Restart(logs))
    ensures var s := Do(Exec(at, Init(), steps), Restart(logs));
            s.service == Prefix(at, s.lastApplied) && s.lastApplied == s.commitIndex == FirstIndex(s.logs)
  {
    hide Exec, IsRun;
    RunOk(at, steps);
  }
}
