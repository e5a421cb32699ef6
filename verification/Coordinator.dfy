/**
 * The coordinator of lab1 as an object, and what its scheduler does as functions of its state.
 * Each Time.Now() of one selectTask pass is one element of `readings`: task id is compared with
 * readings[id] and stamped with readings[id + 1].
 */
module Coordinator {

  datatype Status = Waiting | Working | Finished
  datatype Phase = MapPhase | ReducePhase | CompletePhase
  datatype Task = Task(fileName: string, id: nat, startTime: int, status: Status)

  datatype Assignment =
    | MapJob(id: nat, filePath: string, nReduce: nat)
    | ReduceJob(id: nat, nMap: nat, nReduce: nat)
    | WaitJob
    | CompleteJob

  /** Ten seconds, in nanoseconds. */
  const MaxTaskRunInterval: int := 10_000_000_000

  datatype Coord = Coord(files: seq<string>, nReduce: nat, nMap: nat, phase: Phase, tasks: seq<Task>)

  /** A monotone clock read once for each task and once more. */
  predicate Clock(readings: seq<int>, n: nat) {
    |readings| == n + 1 && forall i, j :: 0 <= i <= j <= n ==> readings[i] <= readings[j]
  }

  /** Given to nobody, or to a worker that has had it for too long. */
  predicate Available(t: Task, now: int) {
    t.status == Waiting || (t.status == Working && now - t.startTime > MaxTaskRunInterval)
  }

  /**
   * The first task that may be handed out, |tasks| if there is none: all before it are finished
   * or were handed out within the interval, and it is neither.
   */
  function FirstAvailable(tasks: seq<Task>, readings: seq<int>, from: nat): (id: nat)
    requires from <= |tasks| && |readings| == |tasks| + 1
    ensures from <= id <= |tasks|
    ensures forall k :: from <= k < id ==>
              tasks[k].status == Finished ||
              (tasks[k].status == Working && readings[k] - tasks[k].startTime <= MaxTaskRunInterval)
    ensures id < |tasks| ==>
              tasks[id].status == Waiting ||
              (tasks[id].status == Working && readings[id] - tasks[id].startTime > MaxTaskRunInterval)
    decreases |tasks| - from
  {
    if from == |tasks| || Available(tasks[from], readings[from]) then from else FirstAvailable(tasks, readings, from + 1)
  }

  predicate AllFinished(tasks: seq<Task>) {
    forall t :: t in tasks ==> t.status == Finished
  }

  function MapTasks(files: seq<string>): seq<Task> {
    seq(|files|, i requires 0 <= i < |files| => Task(files[i], i, 0, Waiting))
  }

  function ReduceTasks(nReduce: nat): seq<Task> {
    seq(nReduce, i requires 0 <= i < nReduce => Task("", i, 0, Waiting))
  }

  function Make(files: seq<string>, nReduce: nat): Coord {
    Coord(files, nReduce, |files|, MapPhase, MapTasks(files))
  }

  function JobFor(c: Coord, id: nat): Assignment {
    if c.phase == MapPhase then MapJob(id, if id < |c.files| then c.files[id] else "", c.nReduce)
    else ReduceJob(id, c.nMap, c.nReduce)
  }

  function Select(c: Coord, readings: seq<int>): (Coord, Assignment)
    requires |readings| == |c.tasks| + 1
  {
    var id := FirstAvailable(c.tasks, readings, 0);
    if id == |c.tasks| then (c, WaitJob)
    else (c.(tasks := c.tasks[id := c.tasks[id].(startTime := readings[id + 1], status := Working)]), JobFor(c, id))
  }

  /** One request for work.  `again` are the readings of the second pass, after a change of phase. */
  function Heartbeat(c: Coord, readings: seq<int>, again: seq<int>): (Coord, Assignment)
    requires |readings| == |c.tasks| + 1 && |again| == c.nReduce + 1
  {
    if c.phase == CompletePhase then (c, CompleteJob)
    else if !AllFinished(c.tasks) then Select(c, readings)
    else if c.phase == MapPhase then Select(c.(phase := ReducePhase, tasks := ReduceTasks(c.nReduce)), again)
    else (c.(phase := CompletePhase), CompleteJob)
  }

  /** A report counts only in the phase it is for. */
  function Report(c: Coord, phase: Phase, id: nat): Coord {
    if phase == c.phase && id < |c.tasks| then c.(tasks := c.tasks[id := c.tasks[id].(status := Finished)]) else c
  }

  // ---------- Progress ----------

  function PhasesLeft(p: Phase): nat {
    match p case MapPhase => 2 case ReducePhase => 1 case CompletePhase => 0
  }

  function Unfinished(tasks: seq<Task>): (n: nat)
    ensures n <= |tasks|
    ensures n == 0 <==> AllFinished(tasks)
  {
    if tasks == [] then 0
    else
      var n := Unfinished(tasks[1..]);
      assert tasks == [tasks[0]] + tasks[1..];
      n + if tasks[0].status == Finished then 0 else 1
  }

  /** (phases left, unfinished tasks), compared in this order. */
  predicate Below(c: Coord, d: Coord) {
    PhasesLeft(c.phase) < PhasesLeft(d.phase) ||
    (c.phase == d.phase && Unfinished(c.tasks) < Unfinished(d.tasks))
  }

  predicate Level(c: Coord, d: Coord) {
    c.phase == d.phase && Unfinished(c.tasks) == Unfinished(d.tasks)
  }

  lemma {:induction false} UnfinishedUpdate(tasks: seq<Task>, id: nat, t: Task)
    requires id < |tasks|
    ensures Unfinished(tasks[id := t]) ==
            Unfinished(tasks) - (if tasks[id].status == Finished then 0 else 1) + (if t.status == Finished then 0 else 1)
    decreases id
  {
    if id == 0 {
      assert tasks[0 := t][1..] == tasks[1..];
    } else {
      UnfinishedUpdate(tasks[1..], id - 1, t);
      assert tasks[id := t][1..] == tasks[1..][id - 1 := t];
    }
  }

  /** The measure falls on the first report of a task, and stays put on every other report. */
  lemma ReportProgress(c: Coord, phase: Phase, id: nat)
    ensures if phase == c.phase && id < |c.tasks| && c.tasks[id].status != Finished
            then Below(Report(c, phase, id), c) else Level(Report(c, phase, id), c)
  {
    if phase == c.phase && id < |c.tasks| {
      UnfinishedUpdate(c.tasks, id, c.tasks[id].(status := Finished));
    }
  }

  /**
   * A heartbeat changes the phase exactly when every task of the phase is finished, and then the
   * measure falls; otherwise it stays.  With work in hand it never hands out a finished task.
   */
  lemma HeartbeatProgress(c: Coord, readings: seq<int>, again: seq<int>)
    requires |readings| == |c.tasks| + 1 && |again| == c.nReduce + 1
    ensures var c' := Heartbeat(c, readings, again).0;
            && (c'.phase != c.phase <==> c.phase != CompletePhase && Unfinished(c.tasks) == 0)
            && (if c'.phase != c.phase then Below(c', c) else Level(c', c))
  {
    hide Select, Unfinished;
    if c.phase != CompletePhase && !AllFinished(c.tasks) {
      SelectLevel(c, readings);
    } else if c.phase == MapPhase {
      SelectLevel(c.(phase := ReducePhase, tasks := ReduceTasks(c.nReduce)), again);
    }
  }

  /** Handing a task out leaves the measure where it is. */
  lemma SelectLevel(c: Coord, readings: seq<int>)
    requires |readings| == |c.tasks| + 1
    ensures Level(Select(c, readings).0, c)
  {
    var id := FirstAvailable(c.tasks, readings, 0);
    if id < |c.tasks| {
      UnfinishedUpdate(c.tasks, id, c.tasks[id].(startTime := readings[id + 1], status := Working));
    }
  }

  /** Nobody who asks is kept waiting while a task is free or overdue. */
  lemma WaitsOnlyForWork(c: Coord, readings: seq<int>)
    requires |readings| == |c.tasks| + 1
    ensures Select(c, readings).1 == WaitJob <==>
            forall k :: 0 <= k < |c.tasks| ==>
              c.tasks[k].status == Finished ||
              (c.tasks[k].status == Working && readings[k] - c.tasks[k].startTime <= MaxTaskRunInterval)
  {
    var id := FirstAvailable(c.tasks, readings, 0);
    assert id < |c.tasks| ==> c.tasks[id].status == Waiting || readings[id] - c.tasks[id].startTime > MaxTaskRunInterval;
  }

  // ---------- The object ----------

  class Scheduler {
    const files: seq<string>
    const nReduce: nat
    const nMap: nat
    var phase: Phase
    var tasks: seq<Task>
    /** Tokens in the done channel, which has room for one. */
    var done: nat

    predicate Valid()
      reads this
    {
      && nMap == |files|
      && (phase == MapPhase ==> |tasks| == nMap)
      && (phase != MapPhase ==> |tasks| == nReduce)
      && done <= (if phase == CompletePhase then 1 else 0)
    }

    function Value(): Coord
      reads this
    {
      Coord(files, nReduce, nMap, phase, tasks)
    }

    constructor (files: seq<string>, nReduce: nat)
      ensures Valid() && Value() == Make(files, nReduce) && done == 0
    {
      this.files, this.nReduce, nMap, done := files, nReduce, |files|, 0;
      new;
      InitMapPhase();
    }

    method InitMapPhase()
      modifies this`phase, this`tasks
      ensures phase == MapPhase && tasks == MapTasks(files)
    {
      phase := MapPhase;
      tasks := seq(|files|, _ => Task("", 0, 0, Waiting));
      for index := 0 to |files|
        invariant phase == MapPhase && |tasks| == |files|
        invariant forall i :: 0 <= i < index ==> tasks[i] == Task(files[i], i, 0, Waiting)
      {
        tasks := tasks[index := Task(files[index], index, 0, Waiting)];
      }
    }

    method InitReducePhase()
      modifies this`phase, this`tasks
      ensures phase == ReducePhase && tasks == ReduceTasks(nReduce)
    {
      phase := ReducePhase;
      tasks := seq(nReduce, _ => Task("", 0, 0, Waiting));
      for i := 0 to nReduce
        invariant phase == ReducePhase && |tasks| == nReduce
        invariant forall k :: 0 <= k < i ==> tasks[k] == Task("", k, 0, Waiting)
      {
        tasks := tasks[i := Task("", i, 0, Waiting)];
      }
    }

    /** Sending on the done channel does not block: its one place is still free. */
    method InitCompletePhase()
      requires done == 0
      modifies this`phase, this`done
      ensures phase == CompletePhase && done == 1
    {
      phase := CompletePhase;
      done := done + 1;
    }

    method SelectTask(readings: seq<int>) returns (response: Assignment, allFinished: bool)
      requires |readings| == |tasks| + 1
      requires phase == MapPhase ==> |tasks| == |files|
      modifies this`tasks
      ensures (Value(), response) == Select(old(Value()), readings)
      ensures allFinished == AllFinished(old(tasks))
      ensures response == WaitJob <==>
              forall k :: 0 <= k < |old(tasks)| ==>
                old(tasks)[k].status == Finished ||
                (old(tasks)[k].status == Working && readings[k] - old(tasks)[k].startTime <= MaxTaskRunInterval)      ensures response.MapJob? ==>
                phase == MapPhase && response.id < |files| && response.filePath == files[response.id] && response.nReduce == nReduce
      ensures response.ReduceJob? ==> phase != MapPhase && response.nMap == nMap && response.nReduce == nReduce
    {
      WaitsOnlyForWork(Value(), readings);
      allFinished := true;
      var hasNewJob := false;
      response := WaitJob;
      var id := 0;
      while id < |tasks|
        invariant 0 <= id <= |tasks| && !hasNewJob && tasks == old(tasks) && response == WaitJob
        invariant FirstAvailable(tasks, readings, 0) == FirstAvailable(tasks, readings, id)
        invariant allFinished == forall k :: 0 <= k < id ==> tasks[k].status == Finished
      {
        match tasks[id].status {
          case Waiting => allFinished, hasNewJob := false, true;
          case Working =>
            allFinished := false;
            if readings[id] - tasks[id].startTime > MaxTaskRunInterval {
              hasNewJob := true;
            }
          case Finished =>
        }
        if hasNewJob {
          assert tasks[id] in old(tasks);
          tasks := tasks[id := tasks[id].(startTime := readings[id + 1], status := Working)];
          if phase == MapPhase {
            response := MapJob(id, files[id], nReduce);
          } else {
            response := ReduceJob(id, nMap, nReduce);
          }
          return;
        }
        id := id + 1;
      }
    }

    method OnHeartbeat(readings: seq<int>, again: seq<int>) returns (response: Assignment)
      requires Valid() && |readings| == |tasks| + 1 && |again| == nReduce + 1
      modifies this
      ensures Valid()
      ensures (Value(), response) == Heartbeat(old(Value()), readings, again)
      ensures done == old(done) + if phase == CompletePhase != old(phase) then 1 else 0
    {
      if phase == CompletePhase {
        return CompleteJob;
      }
      var allFinished;
      response, allFinished := SelectTask(readings);
      if allFinished {
        NothingToSelect(old(Value()), readings);
        match phase {
          case MapPhase =>
            InitReducePhase();
            response, allFinished := SelectTask(again);
          case ReducePhase =>
            InitCompletePhase();
            response := CompleteJob;
          case CompletePhase =>
            assert false;
        }
      }
    }

    method OnReport(p: Phase, id: nat)
      requires p == phase ==> id < |tasks|
      modifies this`tasks
      ensures Value() == Report(old(Value()), p, id)
    {
      if p == phase {
        tasks := tasks[id := tasks[id].(status := Finished)];
      }
    }

    /** The main program waits here until there is a token. */
    method Done() returns (finished: bool)
      requires Valid()
      modifies this`done
      ensures Valid() && finished == (old(done) > 0) && (finished ==> phase == CompletePhase && done == 0)
    {
      finished := done > 0;
      if finished {
        done := done - 1;
      }
    }
  }

  lemma NothingToSelect(c: Coord, readings: seq<int>)
    requires |readings| == |c.tasks| + 1 && AllFinished(c.tasks)
    ensures Select(c, readings) == (c, WaitJob)
  {
    forall k | 0 <= k < |c.tasks|
      ensures c.tasks[k].status == Finished
    {
      assert c.tasks[k] in c.tasks;
    }
  }
}
