/**
 * What a MapReduce job means (lab1): one sequential pass that groups by key and reduces, the
 * partition by hash that the workers use instead, and why the two agree.
 */
module MapReduce {

  datatype KeyValue = KeyValue(key: string, value: string)

  /** `contents` is the file system the inputs are read from; `hash` stands for ihash. */
  datatype Job = Job(
    files: seq<string>,
    contents: string -> string,
    mapf: (string, string) -> seq<KeyValue>,
    reducef: (string, seq<string>) -> string,
    hash: string -> nat,
    nReduce: nat
  )

  predicate ValidJob(job: Job) {
    job.nReduce > 0
  }

  // ---------- The sequential meaning ----------

  function Emitted(job: Job, file: string): seq<KeyValue> {
    job.mapf(file, job.contents(file))
  }

  /** Everything the first n files emit, in file order. */
  function All(job: Job, n: nat): seq<KeyValue>
    requires n <= |job.files|
  {
    if n == 0 then [] else All(job, n - 1) + Emitted(job, job.files[n - 1])
  }

  function Keys(kvs: seq<KeyValue>): set<string> {
    set kv | kv in kvs :: kv.key
  }

  /** The values of one key, in order. */
  function Values(kvs: seq<KeyValue>, key: string): seq<string> {
    if kvs == [] then []
    else
      var last := kvs[|kvs| - 1];
      Values(kvs[..|kvs| - 1], key) + (if last.key == key then [last.value] else [])
  }

  function Grouped(kvs: seq<KeyValue>): map<string, seq<string>> {
    map key | key in Keys(kvs) :: Values(kvs, key)
  }

  function Reduced(job: Job, kvs: seq<KeyValue>): map<string, string> {
    map key | key in Keys(kvs) :: job.reducef(key, Values(kvs, key))
  }

  function Sequential(job: Job): map<string, string> {
    Reduced(job, All(job, |job.files|))
  }

  // ---------- Partition by hash ----------

  function BucketOf(job: Job, key: string): nat
    requires ValidJob(job)
  {
    job.hash(key) % job.nReduce
  }

  function Bucket(job: Job, kvs: seq<KeyValue>, r: nat): seq<KeyValue>
    requires ValidJob(job)
  {
    if kvs == [] then []
    else
      var last := kvs[|kvs| - 1];
      Bucket(job, kvs[..|kvs| - 1], r) + (if BucketOf(job, last.key) == r then [last] else [])
  }

  /** What reduce task r reads from the first n map tasks. */
  function Shuffled(job: Job, n: nat, r: nat): seq<KeyValue>
    requires ValidJob(job) && n <= |job.files|
  {
    if n == 0 then [] else Shuffled(job, n - 1, r) + Bucket(job, Emitted(job, job.files[n - 1]), r)
  }

  lemma {:induction false} BucketConcat(job: Job, a: seq<KeyValue>, b: seq<KeyValue>, r: nat)
    requires ValidJob(job)
    ensures Bucket(job, a + b, r) == Bucket(job, a, r) + Bucket(job, b, r)
    decreases |b|
  {
    hide BucketOf;
    if b == [] {
      assert a + b == a;
    } else {
      BucketConcat(job, a, b[..|b| - 1], r);
      assert (a + b)[..|a + b| - 1] == a + b[..|b| - 1];
    }
  }

  /** Partitioning file by file is partitioning everything. */
  lemma {:induction false} ShuffledIsBucket(job: Job, n: nat, r: nat)
    requires ValidJob(job) && n <= |job.files|
    ensures Shuffled(job, n, r) == Bucket(job, All(job, n), r)
    decreases n
  {
    if n > 0 {
      ShuffledIsBucket(job, n - 1, r);
      BucketConcat(job, All(job, n - 1), Emitted(job, job.files[n - 1]), r);
    }
  }

  /** A bucket has all the values of its keys, in order. */
  lemma {:induction false} BucketValues(job: Job, kvs: seq<KeyValue>, r: nat, key: string)
    requires ValidJob(job)
    ensures Values(Bucket(job, kvs, r), key) == if BucketOf(job, key) == r then Values(kvs, key) else []
    decreases |kvs|
  {
    hide BucketOf;
    if kvs != [] {
      var init, last := kvs[..|kvs| - 1], kvs[|kvs| - 1];
      BucketValues(job, init, r, key);
      var b := Bucket(job, init, r);
      ValuesAppend(b, last, key);
      assert Bucket(job, kvs, r) == if BucketOf(job, last.key) == r then b + [last] else b;
    }
  }

  /** And no other key. */
  lemma {:induction false} BucketKeys(job: Job, kvs: seq<KeyValue>, r: nat, key: string)
    requires ValidJob(job)
    ensures key in Keys(Bucket(job, kvs, r)) <==> key in Keys(kvs) && BucketOf(job, key) == r
    decreases |kvs|
  {
    hide BucketOf;
    if kvs != [] {
      hide Keys;
      var init, last := kvs[..|kvs| - 1], kvs[|kvs| - 1];
      BucketKeys(job, init, r, key);
      assert kvs == init + [last];
      KeysAppend(init, last);
      KeysAppend(Bucket(job, init, r), last);
    }
  }

  lemma ValuesAppend(kvs: seq<KeyValue>, kv: KeyValue, key: string)
    ensures Values(kvs + [kv], key) == Values(kvs, key) + if kv.key == key then [kv.value] else []
  {
    assert (kvs + [kv])[..|kvs + [kv]| - 1] == kvs;
  }

  lemma KeysAppend(kvs: seq<KeyValue>, kv: KeyValue)
    ensures Keys(kvs + [kv]) == Keys(kvs) + {kv.key}
  {
    forall key | key in Keys(kvs) + {kv.key}
      ensures key in Keys(kvs + [kv])
    {
      if key in Keys(kvs) {
        var x :| x in kvs && x.key == key;
        assert x in kvs + [kv];
      } else {
        assert kv in kvs + [kv];
      }
    }
  }

  /** The set, each element once, in ascending order. */
  ghost predicate Lists(picks: seq<nat>, wanted: set<nat>) {
    && (forall i, j :: 0 <= i < j < |picks| ==> picks[i] < picks[j])
    && (forall x :: x in wanted <==> x in picks)
  }

  lemma ListsOneMore(picks: seq<nat>, wanted: set<nat>, x: nat)
    requires Lists(picks, wanted) && forall y :: y in wanted ==> y < x
    ensures Lists(picks + [x], wanted + {x})
  {
    assert forall i :: 0 <= i < |picks| ==> picks[i] in wanted;
  }

  /** Where the key occurs. */
  function PlacesOf(kvs: seq<KeyValue>, key: string): set<nat> {
    set i: nat | i < |kvs| && kvs[i].key == key
  }

  /** Where the pairs of hash class r are. */
  function PlacesIn(job: Job, kvs: seq<KeyValue>, r: nat): set<nat>
    requires ValidJob(job)
  {
    set i: nat | i < |kvs| && job.hash(kvs[i].key) % job.nReduce == r
  }

  /** The values of a key are those of its pairs, all of them and in the order they were emitted. */
  lemma {:induction false} ValuesInOrder(kvs: seq<KeyValue>, key: string) returns (picks: seq<nat>)
    ensures Lists(picks, PlacesOf(kvs, key))
    ensures |Values(kvs, key)| == |picks|
    ensures forall j :: 0 <= j < |picks| ==> picks[j] < |kvs| && Values(kvs, key)[j] == kvs[picks[j]].value
    decreases |kvs|
  {
    if kvs == [] {
      picks := [];
    } else {
      var init, last := kvs[..|kvs| - 1], kvs[|kvs| - 1];
      picks := ValuesInOrder(init, key);
      if last.key == key {
        ListsOneMore(picks, PlacesOf(init, key), |init|);
        assert PlacesOf(kvs, key) == PlacesOf(init, key) + {|init|};
        picks := picks + [|init|];
      } else {
        assert PlacesOf(kvs, key) == PlacesOf(init, key);
      }
    }
  }

  /** A bucket is made of the pairs of its hash class, all of them and in the order they were emitted. */
  lemma {:induction false} BucketInOrder(job: Job, kvs: seq<KeyValue>, r: nat) returns (picks: seq<nat>)
    requires ValidJob(job)
    ensures Lists(picks, PlacesIn(job, kvs, r))
    ensures |Bucket(job, kvs, r)| == |picks|
    ensures forall j :: 0 <= j < |picks| ==> picks[j] < |kvs| && Bucket(job, kvs, r)[j] == kvs[picks[j]]
    decreases |kvs|
  {
    if kvs == [] {
      picks := [];
    } else {
      var init, last := kvs[..|kvs| - 1], kvs[|kvs| - 1];
      picks := BucketInOrder(job, init, r);
      if BucketOf(job, last.key) == r {
        ListsOneMore(picks, PlacesIn(job, init, r), |init|);
        assert PlacesIn(job, kvs, r) == PlacesIn(job, init, r) + {|init|};
        picks := picks + [|init|];
      } else {
        assert PlacesIn(job, kvs, r) == PlacesIn(job, init, r);
      }
    }
  }

  /**
   * The outputs of all reduce tasks together are the sequential result: a key is in exactly the
   * output its hash selects, with the value the sequential pass gives it.
   */
  lemma OutputsAreSequential(job: Job, outputs: map<nat, map<string, string>>, key: string, r: nat)
    requires ValidJob(job) && r < job.nReduce && r in outputs
    requires outputs[r] == Reduced(job, Shuffled(job, |job.files|, r))
    ensures key in outputs[r] <==> key in Sequential(job) && BucketOf(job, key) == r
    ensures key in outputs[r] ==> outputs[r][key] == Sequential(job)[key]
  {
    hide BucketOf, Bucket, Values, Keys;
    ShuffledIsBucket(job, |job.files|, r);
    BucketValues(job, All(job, |job.files|), r, key);
    BucketKeys(job, All(job, |job.files|), r, key);
  }

  // ---------- The workers' loops ----------

  /** The partition loop of doMapTask. */
  method Partition(job: Job, kva: seq<KeyValue>) returns (intermediates: array<seq<KeyValue>>)
    requires ValidJob(job)
    ensures fresh(intermediates) && intermediates.Length == job.nReduce
    ensures forall r :: 0 <= r < job.nReduce ==> intermediates[r] == Bucket(job, kva, r)
  {
    intermediates := new seq<KeyValue>[job.nReduce](_ => []);
    for k := 0 to |kva|
      invariant fresh(intermediates) && intermediates.Length == job.nReduce
      invariant forall r :: 0 <= r < job.nReduce ==> intermediates[r] == Bucket(job, kva[..k], r)
    {
      var index := job.hash(kva[k].key) % job.nReduce;
      assert kva[..k + 1][..k] == kva[..k];
      intermediates[index] := intermediates[index] + [kva[k]];
    }
    assert kva[..|kva|] == kva;
  }

  /** The grouping loop of doReduceTask. */
  method Group(kva: seq<KeyValue>) returns (results: map<string, seq<string>>)
    ensures results == Grouped(kva)
    ensures forall key :: key in results <==> exists i :: 0 <= i < |kva| && kva[i].key == key
    ensures forall key :: key in results ==> results[key] == Values(kva, key)
  {
    results := map[];
    for k := 0 to |kva|
      invariant results == Grouped(kva[..k])
    {
      var kv := kva[k];
      GroupedAppend(kva[..k], kv);
      assert kva[..k + 1] == kva[..k] + [kv];
      results := results[kv.key := (if kv.key in results then results[kv.key] else []) + [kv.value]];
    }
    assert kva[..|kva|] == kva;
  }

  lemma GroupedAppend(kvs: seq<KeyValue>, kv: KeyValue)
    ensures var old' := if kv.key in Keys(kvs) then Values(kvs, kv.key) else [];
            Grouped(kvs + [kv]) == Grouped(kvs)[kv.key := old' + [kv.value]]
  {
    KeysAppend(kvs, kv);
    NoValues(kvs, kv.key);
    assert (kvs + [kv])[..|kvs + [kv]| - 1] == kvs;
    assert forall key :: key != kv.key ==> Values(kvs + [kv], key) == Values(kvs, key);
  }

  lemma {:induction false} NoValues(kvs: seq<KeyValue>, key: string)
    ensures key !in Keys(kvs) ==> Values(kvs, key) == []
    decreases |kvs|
  {
    if kvs != [] {
      NoValues(kvs[..|kvs| - 1], key);
      KeysAppend(kvs[..|kvs| - 1], kvs[|kvs| - 1]);
      assert kvs == kvs[..|kvs| - 1] + [kvs[|kvs| - 1]];
    }
  }

  /** The loop of doReduceTask over the grouped map, in whatever order the keys come. */
  method ReduceGroups(job: Job, kva: seq<KeyValue>) returns (output: map<string, string>)
    ensures output == Reduced(job, kva)
    ensures forall key :: key in output <==> exists i :: 0 <= i < |kva| && kva[i].key == key
    ensures forall key :: key in output ==> output[key] == job.reducef(key, Values(kva, key))
  {
    var results := Group(kva);
    output := map[];
    var left := results.Keys;
    while left != {}
      invariant left <= results.Keys
      invariant output.Keys == results.Keys - left
      invariant forall key :: key in output ==> output[key] == job.reducef(key, Values(kva, key))
      decreases left
    {
      var key :| key in left;
      output := output[key := job.reducef(key, results[key])];
      left := left - {key};
    }
  }
}
