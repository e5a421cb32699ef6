/**
 * One replica's key-value state behind its apply path: `Pipeline` with the map and the
 * duplicate table carried along, changed only by the operations of `KV` and by snapshots.
 */
module Replica {
  import opened Types
  import opened LogStore
  import opened Rpc
  import opened KV
  import P = Pipeline

  /**
   * `machine` is the server's memory, `stored` the decoded snapshot on stable storage, and
   * `images` the decoded contents of the snapshots received from others.
   */
  datatype Replica = Replica(path: P.State, machine: Machine, stored: Machine, images: map<SnapshotMsg, Machine>)

  /** A step of the apply path; `image` is what an arriving snapshot decodes to. */
  datatype Step = Step(path: P.Step, image: Machine)

  function Start(): Replica {
    Replica(P.Init(), Empty, Empty, map[])
  }

  predicate Enabled(at: P.Committed, r: Replica, step: Step) {
    && P.Enabled(at, r.path, step.path)
    && (step.path.SnapshotArrives? ==> step.image == Replay(step.path.msg.data))
  }

  function Image(r: Replica, msg: SnapshotMsg): Machine {
    if msg in r.images then r.images[msg] else Empty
  }

  /** The response the command now delivered gets, and the state after it. */
  function Served(r: Replica): (Machine, Response)
    requires P.CanDeliver(r.path)
  {
    Apply(r.machine, P.Incoming(r.path).command)
  }

  function NextMachine(r: Replica, step: P.Step): Machine {
    match step
    case DeliverCommand(_) =>
      if P.CanDeliver(r.path) && P.Incoming(r.path).index > r.path.kvLastApplied then Served(r).0 else r.machine
    case Restore => if r.path.consumer.Restoring? then Image(r, r.path.consumer.msg) else r.machine
    case Restart(_) => r.stored
    case _ => r.machine
  }

  /** Raft keeps the image of an installed snapshot, or the one the service has just taken. */
  function NextStored(r: Replica, step: P.Step): Machine {
    match step
    case DeliverSnapshot(msg) => if msg.index > r.path.commitIndex then Image(r, msg) else r.stored
    case Cut => if r.path.consumer.Cutting? && r.path.consumer.index > FirstIndex(r.path.logs) then r.machine else r.stored
    case _ => r.stored
  }

  function Do(r: Replica, step: Step): Replica {
    Replica(
      P.Do(r.path, step.path),
      NextMachine(r, step.path),
      NextStored(r, step.path),
      if step.path.SnapshotArrives? then r.images[step.path.msg := step.image] else r.images)
  }

  function Exec(r: Replica, steps: seq<Step>): Replica {
    if steps == [] then r else Do(Exec(r, steps[..|steps| - 1]), Last(steps))
  }

  predicate IsRun(at: P.Committed, r: Replica, steps: seq<Step>) {
    steps == [] ||
    (IsRun(at, r, steps[..|steps| - 1]) && Enabled(at, Exec(r, steps[..|steps| - 1]), Last(steps)))
  }

  ghost predicate HasImage(r: Replica, msg: SnapshotMsg) {
    msg in r.images && r.images[msg] == Replay(msg.data)
  }

  ghost predicate Inv(at: P.Committed, r: Replica) {
    && P.Inv(at, r.path)
    && r.machine == Replay(r.path.service)
    && r.stored == Replay(r.path.snapshot)
    && (forall m :: m in r.path.pending ==> HasImage(r, m))
    && (r.path.consumer.Restoring? ==> HasImage(r, r.path.consumer.msg))
  }

  lemma ReplayOne(cs: seq<Command>, c: Command)
    ensures Replay(cs + [c]) == Apply(Replay(cs), c).0
  {
    assert (cs + [c])[..|cs + [c]| - 1] == cs;
  }

  lemma StepOk(at: P.Committed, r: Replica, step: Step)
    requires P.Indexed(at) && Inv(at, r) && Enabled(at, r, step)
    ensures Inv(at, Do(r, step))
  {
    hide P.Inv, P.Prefix, Apply, Replay, Trim, InstalledLog;
    P.StepOk(at, r.path, step.path);
    if step.path.DeliverCommand? {
      ReplayOne(r.path.service, P.Incoming(r.path).command);
    } else if step.path.Cut? {
      CutData(at, r.path);
    }
  }

  lemma CutData(at: P.Committed, s: P.State)
    requires P.Inv(at, s) && s.consumer.Cutting?
    ensures s.consumer.data == s.service && s.consumer.index == |s.service| && s.service == P.Prefix(at, |s.service|)
  {
  }

  lemma {:induction false} RunOk(at: P.Committed, steps: seq<Step>)
    requires P.Indexed(at) && IsRun(at, Start(), steps)
    ensures Inv(at, Exec(Start(), steps))
    decreases |steps|
  {
    hide Do, Enabled, P.Inv, P.Indexed;
    if steps == [] {
      P.InitOk(at);
    } else {
      RunOk(at, steps[..|steps| - 1]);
      StepOk(at, Exec(Start(), steps[..|steps| - 1]), Last(steps));
    }
  }

  lemma ServiceIsPrefix(at: P.Committed, s: P.State)
    requires P.Inv(at, s)
    ensures s.service == P.Prefix(at, |s.service|)
  {
  }

  /**
   * Replica agreement: in any two runs over the same committed log, with any snapshots, installs
   * and restarts, replicas that have applied as much hold the same map and the same table, and
   * it is the one that replaying the log from empty gives.
   */
  lemma ReplicasAgree(at: P.Committed, a: seq<Step>, b: seq<Step>)
    requires P.Indexed(at) && IsRun(at, Start(), a) && IsRun(at, Start(), b)
    requires |Exec(Start(), a).path.service| == |Exec(Start(), b).path.service|
    ensures Exec(Start(), a).machine == Exec(Start(), b).machine
    ensures Exec(Start(), a).machine == Replay(P.Prefix(at, |Exec(Start(), a).path.service|))
  {
    hide Exec, IsRun, P.Inv, Replay, P.Prefix;
    RunOk(at, a);
    RunOk(at, b);
    ServiceIsPrefix(at, Exec(Start(), a).path);
    ServiceIsPrefix(at, Exec(Start(), b).path);
  }

  /** A replica's map is plain application of its committed prefix, each client's repeats removed. */
  lemma MapHasNoRepeats(at: P.Committed, steps: seq<Step>)
    requires P.Indexed(at) && IsRun(at, Start(), steps)
    ensures var r := Exec(Start(), steps);
            r.machine.store == Plain(map[], PlainLog(P.Prefix(at, |r.path.service|)))
  {
    hide Exec, IsRun, P.Inv, Replay, P.Prefix, Effective, Plain;
    RunOk(at, steps);
    ServiceIsPrefix(at, Exec(Start(), steps).path);
    DuplicatesSuppressed(Exec(Start(), steps).path.service);
  }

  /** Every replica that applies index i answers it alike: as the log before i determines. */
  lemma AnswersAgree(at: P.Committed, steps: seq<Step>)
    requires P.Indexed(at) && IsRun(at, Start(), steps)
    requires var r := Exec(Start(), steps); P.CanDeliver(r.path) && P.Incoming(r.path).index > r.path.kvLastApplied
    ensures var r := Exec(Start(), steps);
            var i := P.Incoming(r.path).index;
            i > 0 && Served(r).1 == Apply(Replay(P.Prefix(at, i - 1)), at(i).command).1
  {
    hide Exec, IsRun, Apply, Replay, P.Prefix, Contiguous;
    RunOk(at, steps);
  }

  /** What a replica cuts is what others may rely on when the snapshot reaches them. */
  lemma CutsAreImages(at: P.Committed, steps: seq<Step>)
    requires P.Indexed(at) && IsRun(at, Start(), steps) && Exec(Start(), steps).path.consumer.Cutting?
    ensures var r := Exec(Start(), steps);
            && r.path.consumer.data == P.Prefix(at, r.path.consumer.index)
            && r.machine == Replay(r.path.consumer.data)
  {
    hide Exec, IsRun, P.Inv, Replay, P.Prefix;
    RunOk(at, steps);
    CutData(at, Exec(Start(), steps).path);
  }

  /** A snapshot the consumer restores lies ahead of everything it has applied. */
  lemma RestoresAreAhead(at: P.Committed, steps: seq<Step>)
    requires P.Indexed(at) && IsRun(at, Start(), steps) && Exec(Start(), steps).path.consumer.Restoring?
    ensures var r := Exec(Start(), steps);
            && r.path.kvLastApplied <= |r.path.service| < r.path.consumer.msg.index
            && Do(r, Step(P.Restore, Empty)).machine == Replay(P.Prefix(at, r.path.consumer.msg.index))
  {
    hide Exec, IsRun, Replay, P.Prefix;
    RunOk(at, steps);
  }
}
