/**
 * Runs of three servers that reach the states in which a guard falls short: two without a crash,
 * and one in which a crash loses what was committed.
 */
module Scenarios {
  import opened Types
  import opened LogStore
  import opened Rpc
  import opened Handlers
  import opened Cluster
  import opened Lockstep
  import Loss
  import M = Median
  import Backup

  // ---------- A snapshot that leaves a stale tail ----------

  /** Server 0 takes a and b; server 2 stands for term 1. */
  lemma TakesTwo(c: Cluster, a: Command, b: Command) returns (c': Cluster)
    requires |c.nodes| == 3 && NewLeader(c.nodes[0], Boot(0, 3)) && c.nodes[2] == Boot(2, 3)
    ensures IsRun(c, [Propose(0, a), Propose(0, b), Elect(2)]) && c' == Exec(c, [Propose(0, a), Propose(0, b), Elect(2)])
    ensures |c'.nodes| == 3 && c'.nodes[1] == c.nodes[1] && Loss.MayStand(c'.nodes[2], 2, 3) && c'.nodes[2].currentTerm == 1
    ensures var n := c'.nodes[0];
            && n.logs == [Placeholder, Entry(1, 1, a), Entry(2, 1, b)] && n.currentTerm == 1 && n.commitIndex == 0 && n.pending == {}
            && LeadsTwo(n) && n.stable.logs == [Placeholder]
  {
    hide Exec, IsRun;
    var c2 := Do(c, Propose(0, a));
    var c3 := Do(c2, Propose(0, b));
    c' := Do(c3, Elect(2));
    Three(c, Propose(0, a), Propose(0, b), Elect(2));
  }

  /** Server 0 leads with two entries and has heard from nobody. */
  predicate LeadsTwo(n: Node) {
    n.me == 0 && n.peers == 3 && n.role == Leader && n.nextIndex == [3, 1, 1] && n.matchIndex == [2, 0, 0]
  }

  /** Server 0, a leader of term 1 with two entries nobody else has; server 1 has voted for it. */
  lemma TwoOfItsOwn(a: Command, b: Command) returns (c: Cluster, steps: seq<Step>)
    ensures IsRun(Init(3), steps) && c == Exec(Init(3), steps) && Loss.NoCrash(steps) && |c.nodes| == 3
    ensures c.nodes[0].logs == [Placeholder, Entry(1, 1, a), Entry(2, 1, b)] && c.nodes[0].currentTerm == 1
    ensures c.nodes[0].commitIndex == 0 && c.nodes[0].pending == {} && LeadsTwo(c.nodes[0]) && c.nodes[0].stable.logs == [Placeholder]
    ensures Loss.Blank(c.nodes[1], 1) && Loss.MayStand(c.nodes[2], 2, 3) && c.nodes[2].currentTerm == 1
  {
    hide Exec, IsRun, ElectionSteps, Voted, NewLeader, Loss.Blank, Loss.MayStand, Do;
    var ask := StartElection(Boot(0, 3)).1;
    FirstElectorate();
    var c1 := Elected(Init(3), 0, [1]);
    assert c1.nodes[1] == Voted(Boot(1, 3), ask) by { assert [1][0] == 1; }
    c := TakesTwo(c1, a, b);
    Chain(Init(3), ElectionSteps(Boot(0, 3), 0, [1]), [Propose(0, a), Propose(0, b), Elect(2)]);
    steps := ElectionSteps(Boot(0, 3), 0, [1]) + [Propose(0, a), Propose(0, b), Elect(2)];
    Loss.ElectionNoCrash(Boot(0, 3), 0, [1]);
  }

  lemma FirstElectorate()
    ensures Electorate(Init(3), 0, [1], StartElection(Boot(0, 3)).1)
    ensures Loss.Blank(Voted(Boot(1, 3), StartElection(Boot(0, 3)).1), 1)
  {
  }

  /** The leader of term 2 compacts its committed entry and sends server 0 the snapshot. */
  lemma SendsSnapshot(c: Cluster, x: Command) returns (c': Cluster, steps: seq<Step>)
    requires |c.nodes| == 3 && Loss.Spreading(c.nodes[2], 2, Entry(1, 2, x), {1}) && c.nodes[2].peers == 3
    requires c.nodes[2].commitIndex == 1 && c.nodes[2].snapshot == []
    requires c.nodes[0].currentTerm == 1 && c.nodes[0].commitIndex == 0
    ensures IsRun(c, steps) && c' == Exec(c, steps) && Loss.NoCrash(steps) && |c'.nodes| == 3
    ensures c'.nodes[0].logs == c.nodes[0].logs && c'.nodes[0].commitIndex == 0
    ensures SnapshotMsg(2, 1, [x]) in c'.nodes[0].pending
  {
    hide Exec, IsRun;
    var n := c.nodes[2];
    assert n.logs[1..2] == [Entry(1, 2, x)];
    assert Commands(n.logs[1..2]) == [x];
    assert n.logs[1..][1..] == [];
    var c1 := Do(c, TakeSnapshot(2, 1));
    assert c1.nodes[2].logs == [Entry(1, 2, Nil)] && c1.nodes[2].snapshot == [x];
    var a := SnapRequest(2, 2, 1, 2, [x]);
    assert ReplicateOneRound(c1.nodes[2], 0) == Snap(a);
    steps := [TakeSnapshot(2, 1), Replicate(2, 0), OnAskSnap(0, a)];
    Three(c, TakeSnapshot(2, 1), Replicate(2, 0), OnAskSnap(0, a));
    c' := Exec(c, steps);
  }

  /**
   * A reachable install that leaves a stale tail: server 0 keeps its entry of term 1 behind a
   * snapshot whose index it holds with another term, and its terms fall.
   */
  lemma StaleTailReached(a: Command, b: Command, x: Command) returns (steps: seq<Step>)
    ensures IsRun(Init(3), steps) && Loss.NoCrash(steps) && |Exec(Init(3), steps).nodes| == 3
    ensures Enabled(Exec(Init(3), steps), Install(0, SnapshotMsg(2, 1, [x])))
    ensures Exec(Init(3), steps).nodes[0].logs == [Placeholder, Entry(1, 1, a), Entry(2, 1, b)]
    ensures Do(Exec(Init(3), steps), Install(0, SnapshotMsg(2, 1, [x]))).nodes[0].logs == [Entry(1, 2, Nil), Entry(2, 1, b)]
  {
    hide Exec, IsRun, Loss.Spreading, Loss.Blank, Loss.MayStand;
    var c1, first := TwoOfItsOwn(a, b);
    assert Loss.Supporters(c1, 2, [1]);
    var c2, second := Loss.ElectAndCommit(c1, 2, [1], x);
    OneHelper();
    LeaderSaved(c2.nodes[2], Entry(1, 2, x), {1});
    var c3, third := SendsSnapshot(c2, x);
    Chain(Init(3), first, second);
    Chain(Init(3), first + second, third);
    steps := first + second + third;
    var stale: Log := [Placeholder, Entry(1, 1, a), Entry(2, 1, b)];
    assert stale[1..][1..] == [Entry(2, 1, b)];
  }

  lemma OneHelper()
    ensures Loss.Elements([1]) == {1}
  {
  }

  lemma LeaderSaved(n: Node, e: Entry, done: set<nat>)
    requires Loss.Spreading(n, 2, e, done)
    ensures n.snapshot == []
  {
  }

  // ---------- A commit index past the log ----------

  /** Both entries reach server 1, and the leader counts them. */
  lemma BothTaken(c: Cluster, a: Command, b: Command)
    requires |c.nodes| == 3 && LeadsTwo(c.nodes[0]) && Loss.Blank(c.nodes[1], 1)
    requires var n := c.nodes[0];
             n.logs == [Placeholder, Entry(1, 1, a), Entry(2, 1, b)] && n.currentTerm == 1 && n.commitIndex == 0
    ensures IsRun(c, ExchangeSteps(c, 0, 1))
    ensures var c', n := Exchange(c, 0, 1), c.nodes[0];
            && |c'.nodes| == 3 && c'.nodes[2] == c.nodes[2]
            && c'.nodes[0] == n.(nextIndex := [3, 3, 1], matchIndex := [2, 2, 0], commitIndex := 2)
            && c'.nodes[1].currentTerm == 1 && c'.nodes[1].commitIndex == 0 && c'.nodes[1].logs == n.logs
  {
    hide IsRun, ExchangeSteps, Exchange, HandleAppendResponse;
    var entries := [Entry(1, 1, a), Entry(2, 1, b)];
    var ask := AppendRequest(1, 0, 0, 0, entries, 0);
    assert c.nodes[0].logs[1..] == entries;
    assert Splice([Placeholder], entries) == [Placeholder] + entries;
    assert HandleAppend(c.nodes[1], ask).1 == AppendResponse(1, true, 0, 0);
    CountsTwo(c.nodes[0], ask);
    AppendExchange(c, 0, 1, ask);
  }

  /** Server 1 learns that both are committed. */
  lemma BothTold(c: Cluster, a: Command, b: Command)
    requires |c.nodes| == 3
    requires var n := c.nodes[0];
             && n.logs == [Placeholder, Entry(1, 1, a), Entry(2, 1, b)] && n.currentTerm == 1 && n.commitIndex == 2
             && n.me == 0 && n.role == Leader && n.nextIndex == [3, 3, 1] && n.matchIndex == [2, 2, 0]
    requires c.nodes[1].currentTerm == 1 && c.nodes[1].commitIndex == 0 && c.nodes[1].logs == c.nodes[0].logs
    ensures IsRun(c, ExchangeSteps(c, 0, 1))
    ensures var c' := Exchange(c, 0, 1);
            && |c'.nodes| == 3 && c'.nodes[2] == c.nodes[2] && c'.nodes[0] == c.nodes[0]
            && c'.nodes[1].currentTerm == 1 && c'.nodes[1].commitIndex == 2 && c'.nodes[1].logs == c.nodes[0].logs
  {
    hide IsRun, ExchangeSteps, Exchange, HandleAppendResponse;
    var tell := AppendRequest(1, 0, 2, 1, [], 2);
    assert c.nodes[0].logs[3..] == [];
    assert HandleAppend(c.nodes[1], tell).1 == AppendResponse(1, true, 0, 0);
    CountsMore(c.nodes[0], tell);
    AppendExchange(c, 0, 1, tell);
  }

  lemma CountsTwo(n: Node, ask: AppendRequest)
    requires LeadsTwo(n) && n.currentTerm == 1 == ask.term && n.commitIndex == 0 && ask.prevIndex == 0 && |ask.entries| == 2
    requires FirstIndex(n.logs) == 0 && |n.logs| == 3 && n.logs[2].term == 1
    ensures var n' := HandleAppendResponse(n, 1, ask, AppendResponse(1, true, 0, 0));
            n' == n.(nextIndex := [3, 3, 1], matchIndex := [2, 2, 0], commitIndex := 2)
  {
    assert n.matchIndex[1 := 2] == [2, 2, 0] && n.nextIndex[1 := 3] == [3, 3, 1];
    MedianTwo();
  }

  lemma MedianTwo()
    ensures M.MedianOf([2, 2, 0]) == 2
  {
    var m := [2, 2, 0];
    assert M.Reached(m, 2) == {0, 1} && M.Reached(m, 3) == {};
    M.MedianRule(m, 2);
    M.MedianRule(m, 3);
    M.ReachedSize(m, 2);
    M.ReachedSize(m, 3);
  }

  lemma CountsMore(n: Node, tell: AppendRequest)
    requires n.role == Leader && n.currentTerm == 1 == tell.term && n.commitIndex == 2 && tell.prevIndex == 2 && tell.entries == []
    requires n.nextIndex == [3, 3, 1] && n.matchIndex == [2, 2, 0]
    ensures HandleAppendResponse(n, 1, tell, AppendResponse(1, true, 0, 0)) == n
  {
    assert n.matchIndex[1 := 2] == n.matchIndex && n.nextIndex[1 := 3] == n.nextIndex;
    MedianTwo();
  }

  /** Server 0 loses both entries, and server 2, which never saw them, leads and sends its own. */
  lemma Overwritten(c: Cluster, y: Command) returns (c': Cluster, more: seq<Step>)
    requires |c.nodes| == 3 && Loss.MayStand(c.nodes[2], 2, 3) && c.nodes[2].currentTerm == 1
    requires var n := c.nodes[0]; n.stable.logs == [Placeholder] && n.stable.term == 1
    requires c.nodes[1].currentTerm == 1
    ensures IsRun(c, [CrashRestart(0)] + more) && c' == Exec(c, [CrashRestart(0)] + more) && Loss.NoCrash(more)
    ensures |c'.nodes| == 3 && c'.nodes[1] == c.nodes[1]
    ensures var l := c'.nodes[2];
            && l.me == 2 && l.role == Leader && l.currentTerm == 2 && l.logs == [Placeholder, Entry(1, 2, y)]
            && l.commitIndex == 0 && l.nextIndex == [1, 1, 2] && |l.matchIndex| == 3
  {
    hide Exec, IsRun, ElectionSteps, Voted;
    var c1 := Do(c, CrashRestart(0));
    One(c, CrashRestart(0));
    var c2 := Elected(c1, 2, [0]);
    c' := Do(c2, Propose(2, y));
    One(c2, Propose(2, y));
    Chain(c1, ElectionSteps(c1.nodes[2], 2, [0]), [Propose(2, y)]);
    more := ElectionSteps(c1.nodes[2], 2, [0]) + [Propose(2, y)];
    Chain(c, [CrashRestart(0)], more);
    Loss.ElectionNoCrash(c1.nodes[2], 2, [0]);
  }

  /** The follower takes the new leader's entry over what it knows to be committed. */
  lemma CutShort(c: Cluster, a: Command, b: Command, y: Command)
    requires |c.nodes| == 3
    requires var l := c.nodes[2];
             && l.me == 2 && l.role == Leader && l.currentTerm == 2 && l.logs == [Placeholder, Entry(1, 2, y)]
             && l.commitIndex == 0 && l.nextIndex == [1, 1, 2] && |l.matchIndex| == 3
    requires var f := c.nodes[1];
             f.currentTerm == 1 && f.commitIndex == 2 && f.logs == [Placeholder, Entry(1, 1, a), Entry(2, 1, b)]
    ensures IsRun(c, ExchangeSteps(c, 2, 1)) && |Exchange(c, 2, 1).nodes| == 3
    ensures var f := Exchange(c, 2, 1).nodes[1]; f.commitIndex == 2 && f.logs == [Placeholder, Entry(1, 2, y)]
  {
    hide IsRun, ExchangeSteps, Exchange, HandleAppendResponse;
    var ask := AppendRequest(2, 2, 0, 0, [Entry(1, 2, y)], 0);
    var logs := c.nodes[1].logs;
    assert c.nodes[2].logs[1..] == [Entry(1, 2, y)];
    assert Splice(logs, ask.entries) == logs[..1] + ask.entries;
    AppendExchange(c, 2, 1, ask);
  }

  /** Only server 1 holds what server 0 would forget. */
  lemma OneBacker(c: Cluster)
    requires |c.nodes| == 3 && c.nodes[0].commitIndex == 2 && c.nodes[0].stable.logs == [Placeholder]
    requires Loss.MayStand(c.nodes[2], 2, 3)
    ensures !Durable(c, CrashRestart(0))
  {
    assert Backers(c, 0) <= {1};
    SubsetSize(Backers(c, 0), {1});
  }

  /**
   * After a crash that is not durable a commit index can lie past the log: server 1 commits two
   * entries, and the leader that follows the crash leaves it one.
   */
  lemma CommitPastLog(a: Command, b: Command, y: Command) returns (steps: seq<Step>, more: seq<Step>)
    ensures IsRun(Init(3), steps + ([CrashRestart(0)] + more)) && Loss.NoCrash(steps) && Loss.NoCrash(more)
    ensures |Exec(Init(3), steps + ([CrashRestart(0)] + more)).nodes| == 3 && !Durable(Exec(Init(3), steps), CrashRestart(0))
    ensures var f := Exec(Init(3), steps + ([CrashRestart(0)] + more)).nodes[1];
            f.commitIndex == 2 && LastIndex(f) == 1 && f.logs == [Placeholder, Entry(1, 2, y)]
  {
    hide Exec, IsRun, ExchangeSteps, Loss.Blank, Loss.MayStand;
    var c1, first := TwoOfItsOwn(a, b);
    BothTaken(c1, a, b);
    var c2 := Exchange(c1, 0, 1);
    BothTold(c2, a, b);
    var c3 := Exchange(c2, 0, 1);
    Chain(Init(3), first, ExchangeSteps(c1, 0, 1));
    Chain(Init(3), first + ExchangeSteps(c1, 0, 1), ExchangeSteps(c2, 0, 1));
    steps := first + ExchangeSteps(c1, 0, 1) + ExchangeSteps(c2, 0, 1);
    Loss.StoredTerm(3, steps, 0);
    OneBacker(c3);
    var c4, rest := Overwritten(c3, y);
    CutShort(c4, a, b, y);
    more := rest + ExchangeSteps(c4, 2, 1);
    Chain(c3, [CrashRestart(0)] + rest, ExchangeSteps(c4, 2, 1));
    assert [CrashRestart(0)] + rest + ExchangeSteps(c4, 2, 1) == [CrashRestart(0)] + more;
    Chain(Init(3), steps, [CrashRestart(0)] + more);
    Loss.ExchangeNoCrash(c1, 0, 1);
    Loss.ExchangeNoCrash(c2, 0, 1);
    Loss.ExchangeNoCrash(c4, 2, 1);
  }

  // ---------- A search that never ends ----------

  /** Server 0 commits a with server 1, and server 2 learns of both. */
  lemma AllHaveA(a: Command) returns (c: Cluster, steps: seq<Step>)
    ensures IsRun(Init(3), steps) && c == Exec(Init(3), steps) && Loss.NoCrash(steps) && |c.nodes| == 3
    ensures var e := Entry(1, 1, a);
            && Led(c.nodes[0], e) && Loss.Holds(c.nodes[1], e)
            && c.nodes[2].logs == [Placeholder, e] && c.nodes[2].commitIndex == 1 && c.nodes[2].currentTerm == 1
            && c.nodes[2].role == Follower && c.nodes[2].me == 2 && c.nodes[2].peers == 3
  {
    hide Exec, IsRun, Loss.Holds, Loss.Spreading, ExchangeSteps;
    Loss.FreshServers(3, 0, [1]);
    var c1, first := Loss.ElectAndCommit(Init(3), 0, [1], a);
    OneHelper();
    CommitTold(c1, a);
    Loss.ExchangeNoCrash(c1, 0, 2);
    Chain(Init(3), first, ExchangeSteps(c1, 0, 2));
    c, steps := Exchange(c1, 0, 2), first + ExchangeSteps(c1, 0, 2);
  }

  /** Server 0 leads term 1 with one entry. */
  predicate Led(n: Node, e: Entry) {
    && n.me == 0 && n.peers == 3 && n.role == Leader && n.currentTerm == 1 && n.logs == [Placeholder, e]
    && |n.nextIndex| == |n.matchIndex| == 3
  }

  lemma CommitTold(c: Cluster, a: Command)
    requires |c.nodes| == 3 && c.nodes[2] == Boot(2, 3)
    requires Loss.Spreading(c.nodes[0], 0, Entry(1, 1, a), {1}) && c.nodes[0].peers == 3 && c.nodes[0].commitIndex == 1
    ensures IsRun(c, ExchangeSteps(c, 0, 2))
    ensures var c', e := Exchange(c, 0, 2), Entry(1, 1, a);
            && |c'.nodes| == 3 && Led(c'.nodes[0], e) && c'.nodes[1] == c.nodes[1]
            && c'.nodes[2].logs == [Placeholder, e] && c'.nodes[2].commitIndex == 1 && c'.nodes[2].currentTerm == 1
            && c'.nodes[2].role == Follower && c'.nodes[2].me == 2 && c'.nodes[2].peers == 3
  {
    hide ExchangeSteps, Exchange, IsRun;
    var e := Entry(1, 1, a);
    var ask := AppendRequest(1, 0, 0, 0, [e], 1);
    assert c.nodes[0].logs[1..] == [e];
    assert [e][1..] == [];
    assert Splice([Placeholder], [e]) == [Placeholder] + [e];
    var (f, r) := HandleAppend(Boot(2, 3), ask);
    Counts(c.nodes[0], ask, r);
    AppendExchange(c, 0, 2, ask);
  }

  lemma Counts(n: Node, ask: AppendRequest, r: AppendResponse)
    requires Led(n, n.logs[|n.logs| - 1]) && r.success && ask.prevIndex == 0
    ensures Led(HandleAppendResponse(n, 2, ask, r), n.logs[|n.logs| - 1])
  {
    hide M.MedianOf;
  }

  /** Server 2 compacts, wins term 2 against a leader with one more entry, and takes b. */
  lemma SecondLeader(c: Cluster, a: Command, x: Command, b: Command) returns (c': Cluster, steps: seq<Step>)
    requires |c.nodes| == 3
    requires var e := Entry(1, 1, a);
             && Led(c.nodes[0], e) && Loss.Holds(c.nodes[1], e)
             && c.nodes[2].logs == [Placeholder, e] && c.nodes[2].commitIndex == 1 && c.nodes[2].currentTerm == 1
             && c.nodes[2].role == Follower && c.nodes[2].me == 2 && c.nodes[2].peers == 3
    ensures IsRun(c, steps) && c' == Exec(c, steps) && Loss.NoCrash(steps) && |c'.nodes| == 3
    ensures var l, v, f := c'.nodes[0], c'.nodes[1], c'.nodes[2];
            && l.me == 0 && l.peers == 3 && l.role == Follower && l.currentTerm == 2
            && l.logs == [Placeholder, Entry(1, 1, a), Entry(2, 1, x)]
            && v.currentTerm == 2 && v.logs == [Placeholder, Entry(1, 1, a)]
            && f.currentTerm == 2 && f.logs == [Entry(1, 1, Nil), Entry(2, 2, b)]
  {
    hide Exec, IsRun, ElectionSteps, ServiceState;
    var e := Entry(1, 1, a);
    var c1 := Do(c, TakeSnapshot(2, 1));
    var c2 := Do(c1, Propose(0, x));
    One(c, TakeSnapshot(2, 1));
    One(c1, Propose(0, x));
    var n := c2.nodes[2];
    assert [Placeholder, e][1..][1..] == [];
    assert n.logs == [Entry(1, 1, Nil)];
    var ask := StartElection(n).1;
    assert ask == VoteRequest(2, 2, 1, 1);
    var c3 := Elected(c2, 2, [1]);
    assert c3.nodes[1] == Voted(c2.nodes[1], ask) by { assert [1][0] == 1; }
    assert c3.nodes[0] == c2.nodes[0];
    var c4 := Do(c3, OnAskVote(0, ask));
    c' := Do(c4, Propose(2, b));
    One(c3, OnAskVote(0, ask));
    One(c4, Propose(2, b));
    Chain(c, [TakeSnapshot(2, 1)], [Propose(0, x)]);
    Chain(c, [TakeSnapshot(2, 1)] + [Propose(0, x)], ElectionSteps(n, 2, [1]));
    Chain(c, [TakeSnapshot(2, 1)] + [Propose(0, x)] + ElectionSteps(n, 2, [1]), [OnAskVote(0, ask)]);
    Chain(c, [TakeSnapshot(2, 1)] + [Propose(0, x)] + ElectionSteps(n, 2, [1]) + [OnAskVote(0, ask)], [Propose(2, b)]);
    steps := [TakeSnapshot(2, 1)] + [Propose(0, x)] + ElectionSteps(n, 2, [1]) + [OnAskVote(0, ask)] + [Propose(2, b)];
    Loss.ElectionNoCrash(n, 2, [1]);
  }

  /** Server 0 leads again, in term 3. */
  lemma ThirdLeader(c: Cluster, a: Command, x: Command, b: Command) returns (c': Cluster, steps: seq<Step>)
    requires |c.nodes| == 3
    requires var l, v, f := c.nodes[0], c.nodes[1], c.nodes[2];
             && l.me == 0 && l.peers == 3 && l.role == Follower && l.currentTerm == 2
             && l.logs == [Placeholder, Entry(1, 1, a), Entry(2, 1, x)]
             && v.currentTerm == 2 && v.logs == [Placeholder, Entry(1, 1, a)]
             && f.currentTerm == 2 && f.logs == [Entry(1, 1, Nil), Entry(2, 2, b)]
    ensures IsRun(c, steps) && c' == Exec(c, steps) && Loss.NoCrash(steps) && |c'.nodes| == 3
    ensures var l, f := c'.nodes[0], c'.nodes[2];
            && NewLeader(l, c.nodes[0]) && f == c.nodes[2]
  {
    hide Exec, IsRun, ElectionSteps;
    c' := Elected(c, 0, [1]);
    steps := ElectionSteps(c.nodes[0], 0, [1]);
    Loss.ElectionNoCrash(c.nodes[0], 0, [1]);
  }

  lemma Stuck(c: Cluster, before: Node, a: Command, x: Command, b: Command)
    requires |c.nodes| == 3 && NewLeader(c.nodes[0], before) && before.me == 0 && before.peers == 3 && before.currentTerm == 2
    requires before.logs == [Placeholder, Entry(1, 1, a), Entry(2, 1, x)]
    requires c.nodes[2].currentTerm == 2 && c.nodes[2].logs == [Entry(1, 1, Nil), Entry(2, 2, b)]
    ensures Backup.Ready(c, 0, 2) && !Backup.SettlesAt(c, 0, 2)
  {
    var l, f := c.nodes[0].logs, c.nodes[2].logs;
    assert l[..2] == [Placeholder, Entry(1, 1, a)] && f[1..] == [Entry(2, 2, b)];
    assert Backup.Whole(l, f) == [Placeholder, Entry(1, 1, a), Entry(2, 2, b)];
    assert TermAt(l, 0) == 0 && TermAt(l, 1) == 1 && TermAt(l, 2) == 1;
    assert TermAt(f, 1) == 1 && TermAt(f, 2) == 2;
    assert Backup.NextTry(l, f, 3) == 1;
  }

  /**
   * A reachable leader and compacted follower, without a crash, between which no exchange ever
   * succeeds and the follower's log never changes, however many there are.
   */
  lemma StallReached(a: Command, x: Command, b: Command) returns (c: Cluster, steps: seq<Step>)
    ensures IsRun(Init(3), steps) && c == Exec(Init(3), steps) && Loss.NoCrash(steps) && |c.nodes| == 3
    ensures c.nodes[0].logs == [Placeholder, Entry(1, 1, a), Entry(2, 1, x)] && c.nodes[0].role == Leader
    ensures c.nodes[2].logs == [Entry(1, 1, Nil), Entry(2, 2, b)]
    ensures Backup.Ready(c, 0, 2)
    ensures forall j: nat :: IsRun(c, ExchangesSteps(c, 0, 2, j)) && !Backup.AcceptedAfter(c, 0, 2, j)
                             && Exchanges(c, 0, 2, j).nodes[2].logs == c.nodes[2].logs
  {
    hide Exec, IsRun, Led, Loss.Holds, Backup.LogPair, Backup.Settles, NewLeader, Exchanges, ExchangesSteps;
    var c1, first := AllHaveA(a);
    var c2, second := SecondLeader(c1, a, x, b);
    var third;
    c, third := ThirdLeader(c2, a, x, b);
    Stuck(c, c2.nodes[0], a, x, b);
    Chain(Init(3), first, second);
    Chain(Init(3), first + second, third);
    steps := first + second + third;
    LeadsNow(c.nodes[0], c2.nodes[0]);
    forall j: nat
      ensures IsRun(c, ExchangesSteps(c, 0, 2, j)) && !Backup.AcceptedAfter(c, 0, 2, j)
      ensures Exchanges(c, 0, 2, j).nodes[2].logs == c.nodes[2].logs
    {
      ExchangesRun(c, 0, 2, j);
      Backup.NeverSettles(c, 0, 2, j);
    }
  }

  lemma LeadsNow(n: Node, before: Node)
    requires NewLeader(n, before)
    ensures n.role == Leader && n.logs == before.logs
  {
  }
}
