/** Log entries, commands and the vocabulary shared by every part of the model. */
module Types {

  datatype WorkType = PutWork | AppendWork | GetWork

  /** A client request as it travels through the log; `Nil` is the command of a placeholder entry. */
  datatype Command =
    | Nil
    | Request(key: string, value: string, work: WorkType, clientId: int, commandId: int)

  datatype Entry = Entry(index: nat, term: nat, command: Command)

  /** Server `who` voted for `cand` in `term`. */
  datatype Vote = Vote(who: nat, term: nat, cand: nat)

  datatype Role = Follower | Candidate | Leader

  /** Every log starts with one placeholder at index 0. */
  const Placeholder := Entry(0, 0, Nil)

  function Last<T>(s: seq<T>): T
    requires |s| > 0
  {
    s[|s| - 1]
  }

  function Min(a: int, b: int): int {
    if a < b then a else b
  }

  function Max(a: int, b: int): int {
    if a < b then b else a
  }

  /** The two logs hold the same first n entries. */
  predicate Agree(a: seq<Entry>, b: seq<Entry>, n: nat) {
    n <= |a| && n <= |b| && forall i :: 0 <= i < n ==> a[i] == b[i]
  }

  function Commands(log: seq<Entry>): (cs: seq<Command>)
    ensures |cs| == |log|
    ensures forall i :: 0 <= i < |log| ==> cs[i] == log[i].command
  {
    seq(|log|, i requires 0 <= i < |log| => log[i].command)
  }

  /** The vote rule of section 5.4.1: a later last term wins, and on equal terms the longer log. */
  predicate UpToDate(term: nat, index: nat, last: Entry) {
    term > last.term || (term == last.term && index >= last.index)
  }

  /** More than half of the n servers. */
  predicate Majority(s: set<nat>, n: nat) {
    2 * |s| > n
  }

  lemma RangeSize(s: set<nat>, n: nat)
    requires forall v :: v in s ==> v < n
    ensures |s| <= n
    decreases n
  {
    if n == 0 {
      assert s == {};
    } else {
      RangeSize(s - {n - 1}, n - 1);
    }
  }

  lemma SubsetSize<T>(a: set<T>, b: set<T>)
    requires a <= b
    ensures |a| <= |b|
  {
    assert b == a + (b - a);
  }

  lemma UnionSize<T>(a: set<T>, b: set<T>)
    ensures |a| + |b| == |a + b| + |a * b|
  {
    assert a + b == a + (b - a);
    assert b == (b - a) + a * b;
  }

  /** Two majorities of the same n servers share a member. */
  lemma MajoritiesMeet(a: set<nat>, b: set<nat>, n: nat) returns (v: nat)
    requires forall v :: v in a ==> v < n
    requires forall v :: v in b ==> v < n
    requires Majority(a, n) && Majority(b, n)
    ensures v in a && v in b
  {
    UnionSize(a, b);
    RangeSize(a + b, n);
    assert a * b != {};
    v :| v in a * b;
  }

  /** Half of the servers and a majority share a member too. */
  lemma HalfMeetsMajority(a: set<nat>, b: set<nat>, n: nat) returns (v: nat)
    requires forall v :: v in a ==> v < n
    requires forall v :: v in b ==> v < n
    requires 2 * |a| >= n && Majority(b, n)
    ensures v in a && v in b
  {
    UnionSize(a, b);
    RangeSize(a + b, n);
    assert a * b != {};
    v :| v in a * b;
  }
}
