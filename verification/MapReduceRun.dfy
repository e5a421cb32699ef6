/**
 * The whole MapReduce run: coordinator, workers and files.  Workers may die or hang at any
 * point and be joined by new ones; a task handed out again is run by several of them, whose
 * writes and reports may come late and twice, in any phase.  Each file is written at once.
 */
module MapReduceRun {
  import opened MapReduce
  import opened Coordinator

  datatype Worker =
    | Idle
    | Mapping(id: nat, filePath: string, nReduce: nat, written: set<nat>)
    | Reducing(id: nat, nMap: nat, read: nat, kva: seq<KeyValue>)
    | Written(id: nat)
    | Gone

  datatype Note = Note(phase: Phase, id: nat)
  datatype Handout = Handout(phase: Phase, id: nat, time: int)

  /** `handed` and `accepted` record every hand-out and every report that counted; no step reads them. */
  datatype System = System(
    coord: Coord,
    workers: seq<Worker>,
    intermediate: map<(nat, nat), seq<KeyValue>>,
    outputs: map<nat, map<string, string>>,
    reports: set<Note>,
    handed: seq<Handout>,
    accepted: set<Note>
  )

  datatype Step =
    | Ask(w: nat, readings: seq<int>, again: seq<int>)
    | WriteBucket(w: nat, r: nat)
    | ReportMap(w: nat)
    | ReadFile(w: nat)
    | WriteOutput(w: nat)
    | ReportReduce(w: nat)
    | OnReport(note: Note)
    | Die(w: nat)
    | Join

  function Init(job: Job): System {
    System(Make(job.files, job.nReduce), [], map[], map[], {}, [], {})
  }

  function WorkerAt(s: System, w: nat): Worker {
    if w < |s.workers| then s.workers[w] else Gone
  }

  predicate Enabled(s: System, step: Step) {
    match step
    case Ask(w, readings, again) =>
      WorkerAt(s, w) == Idle && Clock(readings, |s.coord.tasks|) && Clock(again, s.coord.nReduce)
    case WriteBucket(w, r) => WorkerAt(s, w).Mapping? && r < WorkerAt(s, w).nReduce
    case ReportMap(w) =>
      WorkerAt(s, w).Mapping? && forall r :: 0 <= r < WorkerAt(s, w).nReduce ==> r in WorkerAt(s, w).written
    case ReadFile(w) => WorkerAt(s, w).Reducing? && WorkerAt(s, w).read < WorkerAt(s, w).nMap
    case WriteOutput(w) => WorkerAt(s, w).Reducing? && WorkerAt(s, w).read == WorkerAt(s, w).nMap
    case ReportReduce(w) => WorkerAt(s, w).Written?
    case OnReport(note) => note in s.reports
    case Die(w) => w < |s.workers|
    case Join => true
  }

  /** What a worker does with an answer. */
  function Begin(a: Assignment): Worker {
    match a
    case MapJob(id, filePath, nReduce) => Mapping(id, filePath, nReduce, {})
    case ReduceJob(id, nMap, _) => Reducing(id, nMap, 0, [])
    case WaitJob => Idle
    case CompleteJob => Gone
  }

  function Handed(a: Assignment, c: Coord): seq<Handout> {
    match a
    case MapJob(id, _, _) => if id < |c.tasks| then [Handout(MapPhase, id, c.tasks[id].startTime)] else []
    case ReduceJob(id, _, _) => if id < |c.tasks| then [Handout(ReducePhase, id, c.tasks[id].startTime)] else []
    case _ => []
  }

  function SetWorker(s: System, w: nat, worker: Worker): System {
    if w < |s.workers| then s.(workers := s.workers[w := worker]) else s
  }

  function Do(job: Job, s: System, step: Step): System
    requires ValidJob(job) && Enabled(s, step)
  {
    match step
    case Ask(w, readings, again) =>
      var (c, a) := Heartbeat(s.coord, readings, again);
      SetWorker(s, w, Begin(a)).(coord := c, handed := s.handed + Handed(a, c))
    case WriteBucket(w, r) =>
      var m := WorkerAt(s, w);
      SetWorker(s, w, m.(written := m.written + {r})).(
        intermediate := s.intermediate[(m.id, r) := Bucket(job, Emitted(job, m.filePath), r)])
    case ReportMap(w) =>
      SetWorker(s, w, Idle).(reports := s.reports + {Note(MapPhase, WorkerAt(s, w).id)})
    case ReadFile(w) =>
      var m := WorkerAt(s, w);
      if (m.read, m.id) in s.intermediate
      then SetWorker(s, w, m.(read := m.read + 1, kva := m.kva + s.intermediate[(m.read, m.id)]))
      else SetWorker(s, w, Gone)
    case WriteOutput(w) =>
      var m := WorkerAt(s, w);
      SetWorker(s, w, Written(m.id)).(outputs := s.outputs[m.id := Reduced(job, m.kva)])
    case ReportReduce(w) =>
      SetWorker(s, w, Idle).(reports := s.reports + {Note(ReducePhase, WorkerAt(s, w).id)})
    case OnReport(note) =>
      s.(coord := Report(s.coord, note.phase, note.id),
         accepted := if note.phase == s.coord.phase then s.accepted + {note} else s.accepted)
    case Die(w) => SetWorker(s, w, Gone)
    case Join => s.(workers := s.workers + [Idle])
  }

  /** The states of a run, as far as its steps are enabled. */
  function Exec(job: Job, steps: seq<Step>): System
    requires ValidJob(job)
  {
    if steps == [] then Init(job)
    else
      var s := Exec(job, steps[..|steps| - 1]);
      if Enabled(s, steps[|steps| - 1]) then Do(job, s, steps[|steps| - 1]) else s
  }

  // ---------- The invariant: files ----------

  predicate MapDone(job: Job, s: System, i: nat) {
    forall r :: 0 <= r < job.nReduce ==> (i, r) in s.intermediate
  }

  predicate MapsDone(job: Job, s: System) {
    forall i :: 0 <= i < |job.files| ==> MapDone(job, s, i)
  }

  ghost predicate FilesOk(job: Job, s: System)
    requires ValidJob(job)
  {
    && (forall i, r :: (i, r) in s.intermediate ==>
          i < |job.files| && r < job.nReduce && s.intermediate[(i, r)] == Bucket(job, Emitted(job, job.files[i]), r))
    && (forall r :: r in s.outputs ==> r < job.nReduce && s.outputs[r] == Reduced(job, Shuffled(job, |job.files|, r)))
  }

  ghost predicate WorkerOk(job: Job, s: System, m: Worker)
    requires ValidJob(job)
  {
    match m
    case Mapping(id, filePath, nReduce, written) =>
      && id < |job.files| && filePath == job.files[id] && nReduce == job.nReduce
      && forall r :: r in written ==> (id, r) in s.intermediate
    case Reducing(id, nMap, read, kva) =>
      && s.coord.phase != MapPhase
      && id < job.nReduce && nMap == |job.files| && read <= nMap && kva == Shuffled(job, read, id)
    case Written(id) => s.coord.phase != MapPhase && id in s.outputs
    case _ => true
  }

  /** A report, and a task that counts as finished, stand for files that are there. */
  ghost predicate NoteOk(job: Job, s: System, note: Note) {
    match note.phase
    case MapPhase => note.id < |job.files| && MapDone(job, s, note.id)
    case ReducePhase => s.coord.phase != MapPhase && note.id in s.outputs
    case CompletePhase => false
  }

  ghost predicate CoordOk(job: Job, s: System)
    requires ValidJob(job)
  {
    var c := s.coord;
    && c.files == job.files && c.nReduce == job.nReduce && c.nMap == |job.files|
    && |c.tasks| == (if c.phase == MapPhase then |job.files| else job.nReduce)
    && (c.phase != CompletePhase ==>
          forall id :: 0 <= id < |c.tasks| ==> (c.tasks[id].status == Finished <==> Note(c.phase, id) in s.accepted))
    && (forall note :: note in s.accepted ==> PhasesLeft(note.phase) >= PhasesLeft(c.phase) && NoteOk(job, s, note))
    && (c.phase != MapPhase ==> MapsDone(job, s) && forall i :: 0 <= i < |job.files| ==> Note(MapPhase, i) in s.accepted)
    && (c.phase == CompletePhase ==> forall r :: 0 <= r < job.nReduce ==> Note(ReducePhase, r) in s.accepted)
  }

  ghost predicate Inv(job: Job, s: System)
    requires ValidJob(job)
  {
    && CoordOk(job, s)
    && FilesOk(job, s)
    && (forall w :: 0 <= w < |s.workers| ==> WorkerOk(job, s, s.workers[w]))
    && (forall note :: note in s.reports ==> NoteOk(job, s, note))
  }

  /** Files and phases only advance. */
  ghost predicate Grows(s: System, s': System) {
    && s.intermediate.Keys <= s'.intermediate.Keys && s.outputs.Keys <= s'.outputs.Keys
    && (s.coord.phase != MapPhase ==> s'.coord.phase != MapPhase)
  }

  lemma WorkerOkGrows(job: Job, s: System, s': System, m: Worker)
    requires ValidJob(job) && Grows(s, s') && WorkerOk(job, s, m)
    ensures WorkerOk(job, s', m)
  {
  }

  lemma NoteOkGrows(job: Job, s: System, s': System, note: Note)
    requires Grows(s, s') && NoteOk(job, s, note)
    ensures NoteOk(job, s', note)
  {
  }

  /** One worker moved; the coordinator and the reports received may have grown. */
  lemma Moved(job: Job, s: System, s': System, w: nat, m: Worker)
    requires ValidJob(job) && Inv(job, s) && Grows(s, s') && CoordOk(job, s') && FilesOk(job, s')
    requires s'.workers == SetWorker(s, w, m).workers && WorkerOk(job, s', m)
    requires forall note :: note in s'.reports && note !in s.reports ==> NoteOk(job, s', note)
    ensures Inv(job, s')
  {
    hide CoordOk, FilesOk, WorkerOk, NoteOk, Grows;
    forall v | 0 <= v < |s'.workers|
      ensures WorkerOk(job, s', s'.workers[v])
    {
      if v != w || w >= |s.workers| {
        assert s'.workers[v] == s.workers[v];
        WorkerOkGrows(job, s, s', s.workers[v]);
      }
    }
    forall note | note in s'.reports
      ensures NoteOk(job, s', note)
    {
      if note in s.reports {
        NoteOkGrows(job, s, s', note);
      }
    }
  }

  lemma MapsDoneGrows(job: Job, s: System, s': System)
    requires MapsDone(job, s) && s.intermediate.Keys <= s'.intermediate.Keys
    ensures MapsDone(job, s')
  {
    forall i | 0 <= i < |job.files|
      ensures MapDone(job, s', i)
    {
      assert MapDone(job, s, i);
    }
  }

  /** The coordinator's part survives anything that leaves it alone. */
  lemma CoordOkGrows(job: Job, s: System, s': System)
    requires ValidJob(job) && CoordOk(job, s) && Grows(s, s') && s'.coord == s.coord && s'.accepted == s.accepted
    ensures CoordOk(job, s')
  {
    forall note | note in s.accepted
      ensures NoteOk(job, s', note)
    {
      NoteOkGrows(job, s, s', note);
    }
    if s.coord.phase != MapPhase {
      MapsDoneGrows(job, s, s');
    }
  }

  // ---------- Each step keeps it ----------

  lemma PickIsOpen(c: Coord, readings: seq<int>)
    requires |readings| == |c.tasks| + 1
    ensures var id := FirstAvailable(c.tasks, readings, 0); id < |c.tasks| ==> c.tasks[id].status != Finished
  {
  }

  lemma SelectOk(job: Job, s: System, s': System, w: nat, readings: seq<int>)
    requires ValidJob(job) && Inv(job, s) && s.coord.phase != CompletePhase && |readings| == |s.coord.tasks| + 1
    requires var (c, a) := Select(s.coord, readings);
             s' == SetWorker(s, w, Begin(a)).(coord := c, handed := s'.handed)
    ensures Inv(job, s')
  {
    hide WorkerOk, NoteOk, FilesOk, MapsDone;
    var (c, a) := Select(s.coord, readings);
    PickIsOpen(s.coord, readings);
    forall note | note in s.accepted
      ensures NoteOk(job, s', note)
    {
      NoteOkGrows(job, s, s', note);
    }
    SameFiles(job, s, s');
    SelectedWorker(job, s, s', readings);
    Moved(job, s, s', w, Begin(a));
  }

  lemma SameFiles(job: Job, s: System, s': System)
    requires ValidJob(job) && s'.intermediate == s.intermediate && s'.outputs == s.outputs
    ensures FilesOk(job, s) ==> FilesOk(job, s')
    ensures MapsDone(job, s) ==> MapsDone(job, s')
  {
    if MapsDone(job, s) {
      MapsDoneGrows(job, s, s');
    }
  }

  lemma SelectedWorker(job: Job, s: System, s': System, readings: seq<int>)
    requires ValidJob(job) && CoordOk(job, s) && s.coord.phase != CompletePhase && |readings| == |s.coord.tasks| + 1
    requires s'.coord.phase == s.coord.phase
    ensures WorkerOk(job, s', Begin(Select(s.coord, readings).1))
  {
  }

  /** Every map task is reported, so the reduce phase may begin. */
  lemma ReduceBegins(job: Job, s: System)
    requires ValidJob(job) && Inv(job, s) && s.coord.phase == MapPhase && AllFinished(s.coord.tasks)
    ensures Inv(job, s.(coord := s.coord.(phase := ReducePhase, tasks := ReduceTasks(s.coord.nReduce))))
  {
    hide WorkerOk, FilesOk;
    var s' := s.(coord := s.coord.(phase := ReducePhase, tasks := ReduceTasks(s.coord.nReduce)));
    forall i | 0 <= i < |job.files|
      ensures Note(MapPhase, i) in s.accepted && MapDone(job, s', i)
    {
      assert s.coord.tasks[i] in s.coord.tasks;
      assert NoteOk(job, s, Note(MapPhase, i));
    }
    forall note | note in s.accepted
      ensures NoteOk(job, s', note) && note.phase == MapPhase
    {
      NoteOkGrows(job, s, s', note);
    }
    SameFiles(job, s, s');
    GoneOk(job, s');
    Moved(job, s, s', |s.workers|, Idle);
  }

  lemma CompletionBegins(job: Job, s: System, w: nat)
    requires ValidJob(job) && Inv(job, s) && s.coord.phase == ReducePhase && AllFinished(s.coord.tasks)
    ensures Inv(job, SetWorker(s, w, Gone).(coord := s.coord.(phase := CompletePhase)))
  {
    hide WorkerOk, FilesOk;
    var s' := SetWorker(s, w, Gone).(coord := s.coord.(phase := CompletePhase));
    forall r | 0 <= r < job.nReduce
      ensures Note(ReducePhase, r) in s.accepted
    {
      assert s.coord.tasks[r] in s.coord.tasks;
    }
    forall note | note in s.accepted
      ensures NoteOk(job, s', note)
    {
      NoteOkGrows(job, s, s', note);
    }
    SameFiles(job, s, s');
    GoneOk(job, s');
    Moved(job, s, s', w, Gone);
  }

  lemma GoneOk(job: Job, s: System)
    requires ValidJob(job)
    ensures WorkerOk(job, s, Gone) && WorkerOk(job, s, Idle)
  {
  }

  lemma AskOk(job: Job, s: System, w: nat, readings: seq<int>, again: seq<int>)
    requires ValidJob(job) && Inv(job, s) && Enabled(s, Ask(w, readings, again))
    ensures Inv(job, Do(job, s, Ask(w, readings, again)))
  {
    hide WorkerOk, FilesOk, Select;
    var s' := Do(job, s, Ask(w, readings, again));
    var c := s.coord;
    if c.phase == CompletePhase {
      CoordOkGrows(job, s, s');
      SameFiles(job, s, s');
      GoneOk(job, s');
      Moved(job, s, s', w, Gone);
    } else if !AllFinished(c.tasks) {
      SelectOk(job, s, s', w, readings);
    } else if c.phase == MapPhase {
      var mid := s.(coord := c.(phase := ReducePhase, tasks := ReduceTasks(c.nReduce)));
      ReduceBegins(job, s);
      SelectOk(job, mid, s', w, again);
    } else {
      var done := SetWorker(s, w, Gone).(coord := c.(phase := CompletePhase));
      CompletionBegins(job, s, w);
      IgnoresHistory(job, done, s');
    }
  }

  lemma IgnoresHistory(job: Job, s: System, s': System)
    requires ValidJob(job) && Inv(job, s) && s' == s.(handed := s'.handed)
    ensures Inv(job, s')
  {
    hide FilesOk, Grows;
    GrowsSame(s, s');
    SameFiles(job, s, s');
    CoordOkGrows(job, s, s');
    GoneOk(job, s');
    Moved(job, s, s', |s.workers|, Gone);
  }

  lemma GrowsSame(s: System, s': System)
    requires s'.intermediate == s.intermediate && s'.outputs == s.outputs && s'.coord.phase == s.coord.phase
    ensures Grows(s, s')
  {
  }

  lemma WriteBucketOk(job: Job, s: System, w: nat, r: nat)
    requires ValidJob(job) && Inv(job, s) && Enabled(s, WriteBucket(w, r))
    ensures Inv(job, Do(job, s, WriteBucket(w, r)))
  {
    hide CoordOk, NoteOk, Bucket, Shuffled, Reduced;
    var s' := Do(job, s, WriteBucket(w, r));
    var m := WorkerAt(s, w);
    assert WorkerOk(job, s, m);
    CoordOkGrows(job, s, s');
    Moved(job, s, s', w, m.(written := m.written + {r}));
  }

  lemma ReportMapOk(job: Job, s: System, w: nat)
    requires ValidJob(job) && Inv(job, s) && Enabled(s, ReportMap(w))
    ensures Inv(job, Do(job, s, ReportMap(w)))
  {
    hide CoordOk, FilesOk;
    var s' := Do(job, s, ReportMap(w));
    var m := WorkerAt(s, w);
    assert WorkerOk(job, s, m);
    CoordOkGrows(job, s, s');
    SameFiles(job, s, s');
    Moved(job, s, s', w, Idle);
  }

  /** A reduce worker finds the file: every map task has been written. */
  lemma FileIsThere(job: Job, s: System, w: nat)
    requires ValidJob(job) && Inv(job, s) && Enabled(s, ReadFile(w))
    ensures var m := WorkerAt(s, w);
            && (m.read, m.id) in s.intermediate
            && m.kva + s.intermediate[(m.read, m.id)] == Shuffled(job, m.read + 1, m.id)
  {
    hide NoteOk, Bucket;
    var m := WorkerAt(s, w);
    assert WorkerOk(job, s, m);
    assert MapDone(job, s, m.read);
  }

  lemma ReadFileOk(job: Job, s: System, w: nat)
    requires ValidJob(job) && Inv(job, s) && Enabled(s, ReadFile(w))
    ensures Inv(job, Do(job, s, ReadFile(w)))
  {
    hide CoordOk, NoteOk, FilesOk, Shuffled, Bucket;
    var s' := Do(job, s, ReadFile(w));
    var m := WorkerAt(s, w);
    assert WorkerOk(job, s, m);
    FileIsThere(job, s, w);
    CoordOkGrows(job, s, s');
    SameFiles(job, s, s');
    Moved(job, s, s', w, m.(read := m.read + 1, kva := m.kva + s.intermediate[(m.read, m.id)]));
  }

  lemma WriteOutputOk(job: Job, s: System, w: nat)
    requires ValidJob(job) && Inv(job, s) && Enabled(s, WriteOutput(w))
    ensures Inv(job, Do(job, s, WriteOutput(w)))
  {
    hide CoordOk, NoteOk, Bucket, Shuffled, Reduced;
    var s' := Do(job, s, WriteOutput(w));
    var m := WorkerAt(s, w);
    assert WorkerOk(job, s, m);
    CoordOkGrows(job, s, s');
    Moved(job, s, s', w, Written(m.id));
  }

  lemma ReportReduceOk(job: Job, s: System, w: nat)
    requires ValidJob(job) && Inv(job, s) && Enabled(s, ReportReduce(w))
    ensures Inv(job, Do(job, s, ReportReduce(w)))
  {
    hide CoordOk, FilesOk;
    var s' := Do(job, s, ReportReduce(w));
    assert WorkerOk(job, s, WorkerAt(s, w));
    CoordOkGrows(job, s, s');
    SameFiles(job, s, s');
    Moved(job, s, s', w, Idle);
  }

  lemma OnReportOk(job: Job, s: System, note: Note)
    requires ValidJob(job) && Inv(job, s) && note in s.reports
    ensures Inv(job, Do(job, s, OnReport(note)))
  {
    hide WorkerOk, FilesOk, MapsDone;
    var s' := Do(job, s, OnReport(note));
    NoteInRange(job, s, note);
    forall n | n in s'.accepted
      ensures NoteOk(job, s', n)
    {
      NoteOkGrows(job, s, s', n);
    }
    SameFiles(job, s, s');
    GoneOk(job, s');
    Moved(job, s, s', |s.workers|, Gone);
  }

  /** A report that counts names a task of the phase. */
  lemma NoteInRange(job: Job, s: System, note: Note)
    requires ValidJob(job) && Inv(job, s) && note in s.reports
    ensures note.phase == s.coord.phase ==> note.id < |s.coord.tasks|
  {
    assert NoteOk(job, s, note);
  }

  lemma PeopleOk(job: Job, s: System, step: Step)
    requires ValidJob(job) && Inv(job, s) && Enabled(s, step) && (step.Die? || step.Join?)
    ensures Inv(job, Do(job, s, step))
  {
    hide CoordOk, FilesOk, NoteOk;
    var s' := Do(job, s, step);
    CoordOkGrows(job, s, s');
    SameFiles(job, s, s');
    forall v | 0 <= v < |s'.workers|
      ensures WorkerOk(job, s', s'.workers[v])
    {
      if v < |s.workers| && s'.workers[v] == s.workers[v] {
        WorkerOkGrows(job, s, s', s.workers[v]);
      }
    }
    forall note | note in s'.reports
      ensures NoteOk(job, s', note)
    {
      NoteOkGrows(job, s, s', note);
    }
  }

  lemma StepOk(job: Job, s: System, step: Step)
    requires ValidJob(job) && Inv(job, s) && Enabled(s, step)
    ensures Inv(job, Do(job, s, step))
  {
    hide Inv, Do;
    match step {
      case Ask(w, readings, again) => AskOk(job, s, w, readings, again);
      case WriteBucket(w, r) => WriteBucketOk(job, s, w, r);
      case ReportMap(w) => ReportMapOk(job, s, w);
      case ReadFile(w) => ReadFileOk(job, s, w);
      case WriteOutput(w) => WriteOutputOk(job, s, w);
      case ReportReduce(w) => ReportReduceOk(job, s, w);
      case OnReport(note) => OnReportOk(job, s, note);
      case Die(_) => PeopleOk(job, s, step);
      case Join => PeopleOk(job, s, step);
    }
  }

  lemma {:induction false} RunOk(job: Job, steps: seq<Step>)
    requires ValidJob(job)
    ensures Inv(job, Exec(job, steps))
    decreases |steps|
  {
    hide Do, Enabled;
    if steps != [] {
      var init := steps[..|steps| - 1];
      RunOk(job, init);
      if Enabled(Exec(job, init), steps[|steps| - 1]) {
        StepOk(job, Exec(job, init), steps[|steps| - 1]);
      }
    }
  }

  // ---------- What every run gives ----------

  /**
   * End to end: once the coordinator is in CompletePhase, every key of the sequential result is
   * in exactly one output, the one its hash selects, with the sequential value, and the outputs
   * hold nothing else.
   */
  lemma CompleteMeansSequential(job: Job, steps: seq<Step>, key: string)
    requires ValidJob(job) && Exec(job, steps).coord.phase == CompletePhase
    ensures var outputs := Exec(job, steps).outputs;
            && (forall r :: 0 <= r < job.nReduce <==> r in outputs)
            && (key in Sequential(job) ==> BucketOf(job, key) in outputs && key in outputs[BucketOf(job, key)]
                                           && outputs[BucketOf(job, key)][key] == Sequential(job)[key])
            && (forall r :: r in outputs && key in outputs[r] ==> key in Sequential(job) && r == BucketOf(job, key))
  {
    hide Exec, Bucket, Shuffled, Reduced, Sequential;
    RunOk(job, steps);
    var s := Exec(job, steps);
    forall r | 0 <= r < job.nReduce
      ensures r in s.outputs
    {
      assert NoteOk(job, s, Note(ReducePhase, r));
    }
    forall r | r in s.outputs
      ensures key in s.outputs[r] <==> key in Sequential(job) && BucketOf(job, key) == r
      ensures key in s.outputs[r] ==> s.outputs[r][key] == Sequential(job)[key]
    {
      OutputsAreSequential(job, s.outputs, key, r);
    }
  }

  /** Before completion too, an output that exists is already final: late rewrites change nothing. */
  lemma OutputsAreFinal(job: Job, steps: seq<Step>, r: nat)
    requires ValidJob(job) && r in Exec(job, steps).outputs
    ensures r < job.nReduce && Exec(job, steps).outputs[r] == Reduced(job, Bucket(job, All(job, |job.files|), r))
  {
    hide Exec, Bucket, Shuffled, Reduced;
    RunOk(job, steps);
    ShuffledIsBucket(job, |job.files|, r);
  }

  /** No reduce worker ever fails to open an intermediate file. */
  lemma ReadersFindFiles(job: Job, steps: seq<Step>, w: nat)
    requires ValidJob(job) && Enabled(Exec(job, steps), ReadFile(w))
    ensures var s := Exec(job, steps);
            (WorkerAt(s, w).read, WorkerAt(s, w).id) in s.intermediate && !Do(job, s, ReadFile(w)).workers[w].Gone?
  {
    hide Exec, Bucket, Shuffled;
    RunOk(job, steps);
    FileIsThere(job, Exec(job, steps), w);
  }

  /**
   * The barrier: no reduce job is given before every map task was reported, and no CompleteJob
   * before every reduce task was; and a task whose report counted is never given again.
   */
  lemma Barrier(job: Job, steps: seq<Step>, w: nat, readings: seq<int>, again: seq<int>)
    requires ValidJob(job) && Enabled(Exec(job, steps), Ask(w, readings, again))
    ensures var s := Exec(job, steps);
            var a := Heartbeat(s.coord, readings, again).1;
            && (a.ReduceJob? || a.CompleteJob? ==> forall i :: 0 <= i < |job.files| ==> Note(MapPhase, i) in s.accepted)
            && (a.CompleteJob? ==> forall r :: 0 <= r < job.nReduce ==> Note(ReducePhase, r) in s.accepted)
            && (a.MapJob? ==> a.id < |job.files| && a.filePath == job.files[a.id] && Note(MapPhase, a.id) !in s.accepted)
            && (a.ReduceJob? ==> a.id < job.nReduce && Note(ReducePhase, a.id) !in s.accepted)
  {
    hide Exec, FilesOk, WorkerOk, MapsDone;
    RunOk(job, steps);
    var s := Exec(job, steps);
    var c := s.coord;
    if AllFinished(c.tasks) && c.phase != CompletePhase {
      EachAccepted(job, s);
      if c.phase == MapPhase {
        NoReduceYet(job, s);
      }
    }
  }

  lemma EachAccepted(job: Job, s: System)
    requires ValidJob(job) && CoordOk(job, s) && s.coord.phase != CompletePhase && AllFinished(s.coord.tasks)
    ensures forall id :: 0 <= id < |s.coord.tasks| ==> Note(s.coord.phase, id) in s.accepted
  {
    forall id | 0 <= id < |s.coord.tasks|
      ensures Note(s.coord.phase, id) in s.accepted
    {
      assert s.coord.tasks[id] in s.coord.tasks;
    }
  }

  lemma NoReduceYet(job: Job, s: System)
    requires ValidJob(job) && CoordOk(job, s) && s.coord.phase == MapPhase
    ensures forall r :: Note(ReducePhase, r) !in s.accepted
  {
  }

  // ---------- Hand-outs of one task lie apart ----------

  predicate Apart(handed: seq<Handout>) {
    forall i, j :: 0 <= i < j < |handed| && handed[i].phase == handed[j].phase && handed[i].id == handed[j].id ==>
      handed[j].time - handed[i].time > MaxTaskRunInterval
  }

  /** A task that was given out is no longer waiting, and its stamp is at least every time it was. */
  ghost predicate StampsOk(s: System) {
    var c := s.coord;
    && (forall h :: h in s.handed ==> PhasesLeft(h.phase) >= PhasesLeft(c.phase) && h.phase != CompletePhase)
    && (forall h :: h in s.handed && h.phase == c.phase ==>
          h.id < |c.tasks| && c.tasks[h.id].status != Waiting && h.time <= c.tasks[h.id].startTime)
  }

  lemma SelectApart(s: System, c: Coord, readings: seq<int>)
    requires StampsOk(s.(coord := c)) && Apart(s.handed) && Clock(readings, |c.tasks|) && c.phase != CompletePhase
    ensures var (c', a) := Select(c, readings);
            var s' := s.(coord := c', handed := s.handed + Handed(a, c'));
            StampsOk(s') && Apart(s'.handed)
  {
    var (c', a) := Select(c, readings);
    var handed' := s.handed + Handed(a, c');
    var id := FirstAvailable(c.tasks, readings, 0);
    if id < |c.tasks| {
      var h := Handout(c.phase, id, readings[id + 1]);
      assert handed' == s.handed + [h];
      assert readings[id] <= readings[id + 1];
      forall i | 0 <= i < |s.handed| && s.handed[i].phase == h.phase && s.handed[i].id == id
        ensures h.time - s.handed[i].time > MaxTaskRunInterval
      {
        assert s.handed[i] in s.handed;
      }
      forall g | g in handed'
        ensures g in s.handed || g == h
      {
      }
    } else {
      assert handed' == s.handed;
    }
  }

  lemma StepApart(job: Job, s: System, step: Step)
    requires ValidJob(job) && Enabled(s, step) && StampsOk(s) && Apart(s.handed)
    ensures StampsOk(Do(job, s, step)) && Apart(Do(job, s, step).handed)
  {
    hide Apart, Bucket, Reduced, Select;
    match step {
      case Ask(w, readings, again) =>
        var c := s.coord;
        if c.phase == CompletePhase {
          assert s.handed + [] == s.handed;
        } else if !AllFinished(c.tasks) {
          SelectApart(s, c, readings);
        } else if c.phase == MapPhase {
          SelectApart(s, c.(phase := ReducePhase, tasks := ReduceTasks(c.nReduce)), again);
        } else {
          assert s.handed + [] == s.handed;
        }
      case _ =>
    }
  }

  /**
   * Two hand-outs of one task in one phase are more than ten seconds apart, whoever asked; only
   * the clock readings within each pass need to be monotone.
   */
  lemma {:induction false} HandoutsApart(job: Job, steps: seq<Step>)
    requires ValidJob(job)
    ensures StampsOk(Exec(job, steps)) && Apart(Exec(job, steps).handed)
    decreases |steps|
  {
    hide Do, Enabled, StampsOk, Apart;
    if steps == [] {
      StartApart(job);
    } else {
      var init := steps[..|steps| - 1];
      HandoutsApart(job, init);
      if Enabled(Exec(job, init), steps[|steps| - 1]) {
        StepApart(job, Exec(job, init), steps[|steps| - 1]);
      }
    }
  }

  lemma StartApart(job: Job)
    ensures StampsOk(Init(job)) && Apart(Init(job).handed)
  {
  }

  // ---------- Who is kept waiting ----------

  /** The stamp of a task in hand is the time of one of its hand-outs. */
  ghost predicate StampsMeant(s: System) {
    var c := s.coord;
    forall k: nat :: k < |c.tasks| && c.tasks[k].status == Working ==> Handout(c.phase, k, c.tasks[k].startTime) in s.handed
  }

  lemma SelectMeant(s: System, c: Coord, readings: seq<int>)
    requires StampsMeant(s.(coord := c)) && |readings| == |c.tasks| + 1 && c.phase != CompletePhase
    ensures var (c', a) := Select(c, readings); StampsMeant(s.(coord := c', handed := s.handed + Handed(a, c')))
  {
  }

  lemma StepMeant(job: Job, s: System, step: Step)
    requires ValidJob(job) && Enabled(s, step) && StampsMeant(s)
    ensures StampsMeant(Do(job, s, step))
  {
    hide Bucket, Reduced, Select;
    match step {
      case Ask(w, readings, again) =>
        var c := s.coord;
        if c.phase != CompletePhase && !AllFinished(c.tasks) {
          SelectMeant(s, c, readings);
        } else if c.phase == MapPhase {
          SelectMeant(s, c.(phase := ReducePhase, tasks := ReduceTasks(c.nReduce)), again);
        } else if c.phase == ReducePhase {
          NoneInHand(c);
        }
      case _ =>
    }
  }

  lemma NoneInHand(c: Coord)
    requires AllFinished(c.tasks)
    ensures forall k :: 0 <= k < |c.tasks| ==> c.tasks[k].status == Finished
  {
    forall k | 0 <= k < |c.tasks|
      ensures c.tasks[k].status == Finished
    {
      assert c.tasks[k] in c.tasks;
    }
  }

  lemma {:induction false} RunMeant(job: Job, steps: seq<Step>)
    requires ValidJob(job)
    ensures StampsMeant(Exec(job, steps))
    decreases |steps|
  {
    hide Do, Enabled, StampsMeant;
    if steps == [] {
      StartMeant(job);
    } else {
      var init := steps[..|steps| - 1];
      RunMeant(job, init);
      if Enabled(Exec(job, init), steps[|steps| - 1]) {
        StepMeant(job, Exec(job, init), steps[|steps| - 1]);
      }
    }
  }

  lemma StartMeant(job: Job)
    ensures StampsMeant(Init(job))
  {
  }

  /** The task's report has counted, or it was handed out, to anyone, at most the interval before `now`. */
  ghost predicate Busy(s: System, phase: Phase, k: nat, now: int) {
    Note(phase, k) in s.accepted ||
    exists h :: h in s.handed && h.phase == phase && h.id == k && now - h.time <= MaxTaskRunInterval
  }

  /** The phase in which a request is answered: the next one if every task of this one was reported. */
  ghost predicate AnsweredIn(job: Job, s: System, phase: Phase) {
    var mapped := forall i: nat :: i < |job.files| ==> Note(MapPhase, i) in s.accepted;
    var reduced := forall r: nat :: r < job.nReduce ==> Note(ReducePhase, r) in s.accepted;
    match s.coord.phase
    case MapPhase => phase == if mapped then ReducePhase else MapPhase
    case ReducePhase => phase == if reduced then CompletePhase else ReducePhase
    case CompletePhase => phase == CompletePhase
  }

  function Tasks(job: Job, phase: Phase): nat {
    if phase == MapPhase then |job.files| else job.nReduce
  }

  /** The worker was given task k of the phase. */
  predicate Given(m: Worker, phase: Phase, k: nat) {
    match m
    case Mapping(id, _, _, _) => phase == MapPhase && id == k
    case Reducing(id, _, _, _) => phase == ReducePhase && id == k
    case _ => false
  }

  /**
   * What an asking worker gets, in any state of any run.  After completion, it is told to leave.
   * Before, it is told to wait if and only if every task of the phase was reported or was last
   * handed out at most the interval ago; otherwise it gets the first that is not, in particular
   * any task whose worker died, once that is long enough ago, and this hand-out counts from then.
   */
  lemma AskIsAnswered(job: Job, steps: seq<Step>, w: nat, readings: seq<int>, again: seq<int>) returns (phase: Phase)
    requires ValidJob(job) && Enabled(Exec(job, steps), Ask(w, readings, again))
    ensures var s, s' := Exec(job, steps), Do(job, Exec(job, steps), Ask(w, readings, again));
            var clock := if phase == s.coord.phase then readings else again;
            && AnsweredIn(job, s, phase) && s'.coord.phase == phase && |s'.workers| == |s.workers| && w < |s.workers|
            && (phase == CompletePhase <==> s'.workers[w].Gone?)
            && (phase != CompletePhase ==>
                  && |clock| == Tasks(job, phase) + 1
                  && (s'.workers[w].Idle? <==> forall k: nat :: k < Tasks(job, phase) ==> Busy(s, phase, k, clock[k]))
                  && (!s'.workers[w].Idle? ==>
                        exists k: nat :: FirstNotBusy(job, s, phase, clock, k) && Given(s'.workers[w], phase, k)
                                         && s'.handed == s.handed + [Handout(phase, k, clock[k + 1])])
                  && (s'.workers[w].Idle? ==> s'.handed == s.handed))
  {
    hide Exec, FilesOk, WorkerOk, MapsDone, Select, Busy, Recorded, StampsMeant, StampsOk, Apart, Given, FirstNotBusy;
    RunOk(job, steps);
    HandoutsApart(job, steps);
    RunMeant(job, steps);
    var s := Exec(job, steps);
    var c := s.coord;
    phase := Do(job, s, Ask(w, readings, again)).coord.phase;
    if c.phase != CompletePhase {
      FinishedIsAccepted(job, s);
      if !AllFinished(c.tasks) {
        SelectPhase(c, readings);
        RecordedNow(job, s);
        SelectBusy(job, s, c, readings);
      } else if c.phase == MapPhase {
        var next := c.(phase := ReducePhase, tasks := ReduceTasks(c.nReduce));
        SelectPhase(next, again);
        NoReduceYet(job, s);
        FreshTasks(s, next);
        SelectBusy(job, s, next, again);
      }
    }
  }

  /** Task k is not busy, and every task before it is. */
  ghost predicate FirstNotBusy(job: Job, s: System, phase: Phase, clock: seq<int>, k: nat) {
    && k < Tasks(job, phase) && k + 1 < |clock| && !Busy(s, phase, k, clock[k])
    && forall i: nat :: i < k ==> Busy(s, phase, i, clock[i])
  }

  /** Finished, Working and Waiting as the record has them. */
  ghost predicate Recorded(s: System, c: Coord) {
    && (forall k: nat :: k < |c.tasks| ==> (c.tasks[k].status == Finished <==> Note(c.phase, k) in s.accepted))
    && (forall k: nat :: k < |c.tasks| && c.tasks[k].status == Working ==> Handout(c.phase, k, c.tasks[k].startTime) in s.handed)
    && (forall h :: h in s.handed && h.phase == c.phase && h.id < |c.tasks| ==>
          c.tasks[h.id].status != Waiting && h.time <= c.tasks[h.id].startTime)
  }

  lemma FinishedIsAccepted(job: Job, s: System)
    requires ValidJob(job) && CoordOk(job, s) && s.coord.phase != CompletePhase
    ensures AllFinished(s.coord.tasks) <==> forall k: nat :: k < |s.coord.tasks| ==> Note(s.coord.phase, k) in s.accepted
  {
    hide NoteOk, MapsDone;
    if AllFinished(s.coord.tasks) {
      EachAccepted(job, s);
    }
  }

  lemma RecordedNow(job: Job, s: System)
    requires ValidJob(job) && CoordOk(job, s) && StampsOk(s) && StampsMeant(s) && s.coord.phase != CompletePhase
    ensures Recorded(s, s.coord)
  {
    hide NoteOk, MapsDone;
  }

  lemma SelectPhase(c: Coord, readings: seq<int>)
    requires |readings| == |c.tasks| + 1
    ensures Select(c, readings).0.phase == c.phase
  {
  }

  lemma FreshTasks(s: System, c: Coord)
    requires StampsOk(s) && s.coord.phase == MapPhase && c.phase == ReducePhase && c.tasks == ReduceTasks(c.nReduce)
    requires forall r :: Note(ReducePhase, r) !in s.accepted
    ensures Recorded(s, c)
  {
  }

  lemma BusyIs(s: System, c: Coord, k: nat, now: int)
    requires Recorded(s, c) && k < |c.tasks|
    ensures Busy(s, c.phase, k, now) <==>
            c.tasks[k].status == Finished || (c.tasks[k].status == Working && now - c.tasks[k].startTime <= MaxTaskRunInterval)
  {
  }

  lemma SelectBusy(job: Job, s: System, c: Coord, readings: seq<int>)
    requires Recorded(s, c) && |readings| == |c.tasks| + 1 && |c.tasks| == Tasks(job, c.phase) && c.phase != CompletePhase
    ensures var (c', a) := Select(c, readings);
            var m := Begin(a);
            && (m.Idle? <==> forall k: nat :: k < Tasks(job, c.phase) ==> Busy(s, c.phase, k, readings[k]))
            && (m.Idle? ==> Handed(a, c') == [])
            && (!m.Idle? ==>
                  !m.Gone? && exists k: nat :: FirstNotBusy(job, s, c.phase, readings, k) && Given(m, c.phase, k)
                                               && Handed(a, c') == [Handout(c.phase, k, readings[k + 1])])
  {
    hide Busy, Recorded;
    forall k: nat | k < |c.tasks|
      ensures Busy(s, c.phase, k, readings[k]) <==>
              c.tasks[k].status == Finished || (c.tasks[k].status == Working && readings[k] - c.tasks[k].startTime <= MaxTaskRunInterval)
    {
      BusyIs(s, c, k, readings[k]);
    }
    var id := FirstAvailable(c.tasks, readings, 0);
    if id < |c.tasks| {
      assert FirstNotBusy(job, s, c.phase, readings, id);
    }
  }

  // ---------- Progress ----------

  /**
   * Along any run the measure (phases left, unfinished tasks) never rises, and each step lowers
   * it exactly when it is the first report of a task or a request that changes the phase.
   */
  lemma StepProgress(job: Job, s: System, step: Step)
    requires ValidJob(job) && Enabled(s, step)
    ensures var c, c' := s.coord, Do(job, s, step).coord;
            var first := step.OnReport? && step.note.phase == c.phase && step.note.id < |c.tasks|
                         && c.tasks[step.note.id].status != Finished;
            if first || c'.phase != c.phase then Below(c', c) else Level(c', c)
  {
    hide Bucket, Reduced, Heartbeat, Below, Level;
    match step {
      case Ask(_, readings, again) => HeartbeatProgress(s.coord, readings, again);
      case OnReport(note) =>
        ReportProgress(s.coord, note.phase, note.id);
      case _ => SameLevel(s.coord);
    }
  }

  lemma SameLevel(c: Coord)
    ensures Level(c, c)
  {
  }
}
