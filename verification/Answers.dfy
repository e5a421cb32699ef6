/**
 * Whose answer a waiting client gets.  Command waits at the index that Start returned and drops
 * the term, and the consumer hands its response to whoever waits at the index it has applied,
 * provided it leads in that entry's term.
 */
module Answers {
  import opened Types
  import opened LogStore
  import opened Rpc
  import opened Handlers
  import opened Cluster
  import opened Lockstep
  import B = Bounds
  import Entries
  import Loss
  import Scenarios

  /** Start(cmd) has returned index i and term t here: the server leads t and has the entry. */
  predicate Started(n: Node, i: nat, t: nat, cmd: Command) {
    B.Leads(n, t) && FirstIndex(n.logs) < i && HasEntry(n.logs, i, Entry(i, t, cmd))
  }

  /** What the consumer asks before it hands the response for index i to whoever waits there. */
  predicate Notifies(n: Node, i: nat) {
    FirstIndex(n.logs) < i <= n.commitIndex && n.role == Leader && TermAt(n.logs, i) == n.currentTerm
  }

  /** Start leaves the server as `Started` says. */
  lemma StartStarts(n: nat, steps: seq<Step>, p: nat, cmd: Command)
    requires p < n && IsRun(Init(n), steps) && Exec(Init(n), steps).nodes[p].role == Leader
    ensures var l := Exec(Init(n), steps).nodes[p]; Started(Start(l, cmd), LastIndex(l) + 1, l.currentTerm, cmd)
  {
    hide Exec, IsRun, B.Inv, B.E.Inv;
    var c := Exec(Init(n), steps);
    B.RunOk(n, steps);
    B.E.RunOk(n, steps);
    B.GetNode(c, p);
    B.E.GetNode(c, p);
    B.Ends(c.nodes[p].logs);
  }

  /**
   * In every run, with any crash: what any server ever has at the index that Start returned is
   * the command given to Start if and only if it has the term that Start returned, which Command
   * does not look at.
   */
  lemma AnswerIsOwnIff(n: nat, steps: seq<Step>, more: seq<Step>, p: nat, i: nat, t: nat, cmd: Command, q: nat)
    requires p < n && q < n && IsRun(Init(n), steps + more) && Started(Exec(Init(n), steps).nodes[p], i, t, cmd)
    requires var b := Exec(Init(n), steps + more).nodes[q]; FirstIndex(b.logs) < i && InLog(b.logs, i)
    ensures var b := Exec(Init(n), steps + more).nodes[q];
            b.logs[i - FirstIndex(b.logs)] == Entry(i, t, cmd) <==> TermAt(b.logs, i) == t
  {
    hide Exec, IsRun;
    if TermAt(Exec(Init(n), steps + more).nodes[q].logs, i) == t {
      Entries.OneEntry(n, steps, more, p, q, i);
    }
  }

  // ---------- A waiter that is told of another's command ----------

  /** The leader of term 2 overwrites what server 0 has and tells it of the commit. */
  lemma Taught(c: Cluster, z: Command)
    requires |c.nodes| == 3 && Loss.Spreading(c.nodes[2], 2, Entry(1, 2, z), {1}) && c.nodes[2].peers == 3 && c.nodes[2].commitIndex == 1
    requires Scenarios.LeadsTwo(c.nodes[0]) && c.nodes[0].currentTerm == 1 && c.nodes[0].commitIndex == 0
    requires var logs := c.nodes[0].logs; |logs| == 3 && logs[0] == Placeholder && logs[1].term == 1
    ensures IsRun(c, ExchangeSteps(c, 2, 0))
    ensures var c' := Exchange(c, 2, 0);
            && |c'.nodes| == 3 && c'.nodes[1] == c.nodes[1]
            && var f := c'.nodes[0];
               && f.me == 0 && f.peers == 3 && f.role == Follower && f.currentTerm == 2 && f.commitIndex == 1
               && f.logs == [Placeholder, Entry(1, 2, z)]
  {
    hide IsRun, ExchangeSteps, Exchange, HandleAppendResponse;
    var e := Entry(1, 2, z);
    var ask := AppendRequest(2, 2, 0, 0, [e], 1);
    assert c.nodes[2].logs[1..] == [e];
    assert Splice(c.nodes[0].logs, [e]) == c.nodes[0].logs[..1] + [e];
    AppendExchange(c, 2, 0, ask);
  }

  /** Server 0 leads once more, in term 3, and takes y. */
  lemma LeadsAgain(c: Cluster, z: Command, y: Command) returns (c': Cluster, steps: seq<Step>)
    requires |c.nodes| == 3 && Loss.Holds(c.nodes[1], Entry(1, 2, z))
    requires var f := c.nodes[0];
             && f.me == 0 && f.peers == 3 && f.role == Follower && f.currentTerm == 2 && f.commitIndex == 1
             && f.logs == [Placeholder, Entry(1, 2, z)]
    ensures IsRun(c, steps) && c' == Exec(c, steps) && Loss.NoCrash(steps) && |c'.nodes| == 3
    ensures var l := c'.nodes[0];
            && l.me == 0 && l.peers == 3 && l.role == Leader && l.currentTerm == 3 && l.commitIndex == 1
            && l.logs == [Placeholder, Entry(1, 2, z), Entry(2, 3, y)] && l.nextIndex == [3, 2, 2] && l.matchIndex == [2, 0, 0]
    ensures var f := c'.nodes[1]; f.currentTerm == 3 && f.commitIndex == 0 && f.logs == [Placeholder, Entry(1, 2, z)]
  {
    hide Exec, IsRun, ElectionSteps;
    var c1 := Elected(c, 0, [1]);
    assert c1.nodes[1] == Voted(c.nodes[1], StartElection(c.nodes[0]).1) by { assert [1][0] == 1; }
    c' := Do(c1, Propose(0, y));
    One(c1, Propose(0, y));
    Chain(c, ElectionSteps(c.nodes[0], 0, [1]), [Propose(0, y)]);
    steps := ElectionSteps(c.nodes[0], 0, [1]) + [Propose(0, y)];
    Loss.ElectionNoCrash(c.nodes[0], 0, [1]);
  }

  lemma SecondCounted(n: Node, ask: AppendRequest)
    requires n.role == Leader && n.currentTerm == 3 == ask.term && n.commitIndex == 1 && ask.prevIndex == 1 && |ask.entries| == 1
    requires FirstIndex(n.logs) == 0 && |n.logs| == 3 && n.logs[2].term == 3 && n.nextIndex == [3, 2, 2] && n.matchIndex == [2, 0, 0]
    ensures var n' := HandleAppendResponse(n, 1, ask, AppendResponse(3, true, 0, 0));
            n' == n.(nextIndex := [3, 3, 2], matchIndex := [2, 2, 0], commitIndex := 2)
  {
    var m := [2, 2, 0];
    assert n.matchIndex[1 := 2] == m && n.nextIndex[1 := 3] == [3, 3, 2];
    Scenarios.MedianTwo();
  }

  /** Server 1 takes y, and index 2 is committed. */
  lemma SecondCommitted(c: Cluster, z: Command, y: Command)
    requires |c.nodes| == 3
    requires var l := c.nodes[0];
             && l.me == 0 && l.peers == 3 && l.role == Leader && l.currentTerm == 3 && l.commitIndex == 1
             && l.logs == [Placeholder, Entry(1, 2, z), Entry(2, 3, y)] && l.nextIndex == [3, 2, 2] && l.matchIndex == [2, 0, 0]
    requires var f := c.nodes[1]; f.currentTerm == 3 && f.commitIndex == 0 && f.logs == [Placeholder, Entry(1, 2, z)]
    ensures IsRun(c, ExchangeSteps(c, 0, 1)) && |Exchange(c, 0, 1).nodes| == 3
    ensures Exchange(c, 0, 1).nodes[0] == c.nodes[0].(nextIndex := [3, 3, 2], matchIndex := [2, 2, 0], commitIndex := 2)
  {
    hide IsRun, ExchangeSteps, Exchange, HandleAppendResponse;
    var l, f, e := c.nodes[0], c.nodes[1], Entry(2, 3, y);
    var ask := AppendRequest(3, 0, 1, 2, [e], 1);
    assert l.logs[2..] == [e];
    assert HandleAppend(f, ask).1 == AppendResponse(3, true, 0, 0) by { hide Splice; }
    SecondCounted(l, ask);
    AppendExchange(c, 0, 1, ask);
  }

  /**
   * A run of three servers without a crash in which Start(b) returns index 2 on server 0, and
   * server 0 later commits y there, leads in y's term, and so answers b's client with y.
   */
  lemma WrongWaiter(a: Command, b: Command, z: Command, y: Command) returns (steps: seq<Step>, more: seq<Step>)
    ensures IsRun(Init(3), steps + more) && Loss.NoCrash(steps + more)
    ensures |Exec(Init(3), steps).nodes| == |Exec(Init(3), steps + more).nodes| == 3
    ensures Started(Exec(Init(3), steps).nodes[0], 2, 1, b)
    ensures var n := Exec(Init(3), steps + more).nodes[0];
            Notifies(n, 2) && n.logs == [Placeholder, Entry(1, 2, z), Entry(2, 3, y)]
  {
    hide Exec, IsRun, ExchangeSteps, Loss.Spreading, Loss.Blank, Loss.MayStand, Loss.Holds;
    var c1;
    c1, steps := Scenarios.TwoOfItsOwn(a, b);
    assert Loss.Supporters(c1, 2, [1]);
    var c2, second := Loss.ElectAndCommit(c1, 2, [1], z);
    Scenarios.OneHelper();
    assert c2.nodes[0] == c1.nodes[0] && Loss.Holds(c2.nodes[1], Entry(1, 2, z)) by { assert 1 in [1]; }
    Taught(c2, z);
    var c3 := Exchange(c2, 2, 0);
    var c4, third := LeadsAgain(c3, z, y);
    SecondCommitted(c4, z, y);
    Chain(c1, second, ExchangeSteps(c2, 2, 0));
    Chain(c1, second + ExchangeSteps(c2, 2, 0), third);
    Chain(c1, second + ExchangeSteps(c2, 2, 0) + third, ExchangeSteps(c4, 0, 1));
    more := second + ExchangeSteps(c2, 2, 0) + third + ExchangeSteps(c4, 0, 1);
    Chain(Init(3), steps, more);
    Loss.ExchangeNoCrash(c2, 2, 0);
    Loss.ExchangeNoCrash(c4, 0, 1);
  }
}
