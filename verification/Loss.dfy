/**
 * What a crash after Start can cost.  In a fresh cluster of n servers the first leader commits
 * an entry that it has not stored, with the help of exactly n / 2 others, and crashes.  For even
 * n the crash is durable: without the leader the others are still half.  For odd n the entry is
 * lost in some run, and another takes its index.
 */
module Loss {
  import opened Types
  import opened LogStore
  import opened Rpc
  import opened Median
  import opened Handlers
  import opened Cluster
  import opened Lockstep
  import E = Election
  import Bounds
  import Safety

  // ---------- One entry spreads ----------

  /** A server that has heard of nothing but elections. */
  predicate Blank(f: Node, term: nat) {
    f.currentTerm <= term && f.logs == [Placeholder] && f.commitIndex == 0
  }

  /** A server that has taken the entry. */
  predicate Holds(f: Node, e: Entry) {
    f.currentTerm == e.term && f.logs == [Placeholder, e] && f.commitIndex == 0
  }

  /** The leader of e's term, e its only entry and not stored, when the servers in `done` have taken it. */
  predicate Spreading(n: Node, me: nat, e: Entry, done: set<nat>) {
    && n.me == me && me < n.peers && n.role == Leader && n.currentTerm == e.term && n.logs == [Placeholder, e]
    && |n.matchIndex| == |n.nextIndex| == n.peers
    && (forall q :: 0 <= q < n.peers ==> n.matchIndex[q] == if q == me || q in done then 1 else 0)
    && (forall q :: 0 <= q < n.peers && q != me && q !in done ==> n.nextIndex[q] == 1)
    && n.commitIndex == (if |done| >= n.peers / 2 then 1 else 0)
    && n.stable.logs == [Placeholder] && n.snapshot == []
  }

  function Offer(e: Entry, me: nat): AppendRequest {
    AppendRequest(e.term, me, 0, 0, [e], 0)
  }

  lemma OfferTaken(f: Node, e: Entry, me: nat)
    requires Blank(f, e.term) && e.index == 1
    ensures var (f', r) := HandleAppend(f, Offer(e, me)); Holds(f', e) && r == AppendResponse(e.term, true, 0, 0)
  {
    assert [e][1..] == [];
    assert Splice([Placeholder], [e]) == [Placeholder] + [e];
  }

  lemma MedianOfDone(m: seq<nat>, me: nat, done: set<nat>)
    requires |m| > 0 && me < |m| && me !in done && forall q :: q in done ==> q < |m|
    requires forall q :: 0 <= q < |m| ==> m[q] == if q == me || q in done then 1 else 0
    ensures MedianOf(m) == if |done| >= |m| / 2 then 1 else 0
  {
    assert Reached(m, 1) == done + {me};
    assert Reached(m, 2) == {};
    ReachedSize(m, 1);
    ReachedSize(m, 2);
    MedianRule(m, 1);
    MedianRule(m, 2);
  }

  lemma OfferCounted(n: Node, me: nat, e: Entry, done: set<nat>, h: nat)
    requires Spreading(n, me, e, done) && e.index == 1 && h < n.peers && h != me && h !in done && me !in done
    requires |done| < n.peers / 2 && forall q :: q in done ==> q < n.peers
    ensures ReplicateOneRound(n, h) == Entries(Offer(e, me))
    ensures var n' := HandleAppendResponse(n, h, Offer(e, me), AppendResponse(e.term, true, 0, 0));
            Spreading(n', me, e, done + {h}) && n'.peers == n.peers
  {
    hide MedianOf;
    assert n.logs[1..] == [e];
    MedianOfDone(n.matchIndex[h := 1], me, done + {h});
  }

  /** One exchange hands the entry to h. */
  lemma SpreadOne(c: Cluster, me: nat, e: Entry, done: set<nat>, h: nat)
    requires me < |c.nodes| && h < |c.nodes| && h != me && h !in done && me !in done && e.index == 1
    requires Spreading(c.nodes[me], me, e, done) && c.nodes[me].peers == |c.nodes| && Blank(c.nodes[h], e.term)
    requires |done| < |c.nodes| / 2 && forall q :: q in done ==> q < |c.nodes|
    ensures var c' := Exchange(c, me, h);
            && IsRun(c, ExchangeSteps(c, me, h)) && |c'.nodes| == |c.nodes|
            && Spreading(c'.nodes[me], me, e, done + {h}) && c'.nodes[me].peers == |c.nodes| && Holds(c'.nodes[h], e)
            && forall w :: 0 <= w < |c.nodes| && w != me && w != h ==> c'.nodes[w] == c.nodes[w]
  {
    hide HandleAppend, HandleAppendResponse, Exchange, ExchangeSteps, IsRun, Blank;
    OfferTaken(c.nodes[h], e, me);
    OfferCounted(c.nodes[me], me, e, done, h);
    AppendExchange(c, me, h, Offer(e, me));
  }

  predicate Helpers(c: Cluster, me: nat, helpers: seq<nat>, e: Entry) {
    Distinct(helpers) && forall i :: 0 <= i < |helpers| ==> helpers[i] < |c.nodes| && helpers[i] != me && Blank(c.nodes[helpers[i]], e.term)
  }

  function Elements(s: seq<nat>): set<nat> {
    set x | x in s
  }

  lemma ElementsGrow(s: seq<nat>)
    requires |s| > 0 && Distinct(s)
    ensures Last(s) !in Elements(s[..|s| - 1]) && Elements(s) == Elements(s[..|s| - 1]) + {Last(s)}
    ensures Distinct(s[..|s| - 1])
  {
    assert s == s[..|s| - 1] + [Last(s)];
  }

  lemma {:induction false} ElementsCount(s: seq<nat>)
    requires Distinct(s)
    ensures |Elements(s)| == |s|
    decreases |s|
  {
    if s != [] {
      ElementsGrow(s);
      ElementsCount(s[..|s| - 1]);
    }
  }

  lemma {:induction false} Spread(c: Cluster, me: nat, e: Entry, helpers: seq<nat>) returns (c': Cluster, steps: seq<Step>)
    requires me < |c.nodes| && e.index == 1 && Helpers(c, me, helpers, e) && |helpers| <= |c.nodes| / 2
    requires Spreading(c.nodes[me], me, e, {}) && c.nodes[me].peers == |c.nodes|
    ensures IsRun(c, steps) && c' == Exec(c, steps) && NoCrash(steps) && |c'.nodes| == |c.nodes|
    ensures Spreading(c'.nodes[me], me, e, Elements(helpers)) && c'.nodes[me].peers == |c.nodes|
    ensures forall h :: h in helpers ==> Holds(c'.nodes[h], e)
    ensures forall w: nat :: w < |c.nodes| && w != me && w !in helpers ==> c'.nodes[w] == c.nodes[w]
    decreases |helpers|
  {
    hide Spreading, Holds, Blank, Exec, IsRun, ExchangeSteps;
    if helpers == [] {
      NoSteps(c);
      c', steps := c, [];
      assert Elements([]) == {};
    } else {
      var init, h := helpers[..|helpers| - 1], Last(helpers);
      ElementsGrow(helpers);
      ElementsCount(init);
      var mid, first := Spread(c, me, e, init);
      SpreadOne(mid, me, e, Elements(init), h);
      c' := Exchange(mid, me, h);
      steps := first + ExchangeSteps(mid, me, h);
      Chain(c, first, ExchangeSteps(mid, me, h));
      ExchangeNoCrash(mid, me, h);
    }
  }

  predicate NoCrash(steps: seq<Step>) {
    forall k :: 0 <= k < |steps| ==> !steps[k].CrashRestart?
  }

  lemma ExchangeNoCrash(c: Cluster, p: nat, q: nat)
    requires p < |c.nodes| && q < |c.nodes|
    ensures NoCrash(ExchangeSteps(c, p, q))
  {
  }

  lemma {:induction false} AskedNoCrash(voters: seq<nat>, me: nat, ask: VoteRequest)
    ensures NoCrash(Asked(voters, me, ask))
    decreases |voters|
  {
    if voters != [] {
      AskedNoCrash(voters[..|voters| - 1], me, ask);
    }
  }

  // ---------- An election, an entry, a commit ----------

  /** A server that may stand for the term after its own. */
  predicate MayStand(n: Node, me: nat, peers: nat) {
    n.me == me && n.peers == peers && n.role != Leader && n.logs == [Placeholder] && n.commitIndex == 0 && n.snapshot == []
  }

  predicate Supporters(c: Cluster, me: nat, voters: seq<nat>)
    requires me < |c.nodes|
  {
    Distinct(voters) && forall i :: 0 <= i < |voters| ==>
      voters[i] < |c.nodes| && voters[i] != me && Blank(c.nodes[voters[i]], c.nodes[me].currentTerm)
  }

  lemma BlankVotes(c: Cluster, me: nat, voters: seq<nat>)
    requires me < |c.nodes| && MayStand(c.nodes[me], me, |c.nodes|) && Supporters(c, me, voters)
    ensures Electorate(c, me, voters, StartElection(c.nodes[me]).1)
  {
  }

  lemma BlankStays(f: Node, ask: VoteRequest, term: nat)
    requires Blank(f, term)
    ensures Blank(Voted(f, ask), ask.term)
  {
  }

  lemma FreshLeader(n: Node, before: Node, me: nat, x: Command)
    requires NewLeader(n, before) && MayStand(before, me, before.peers) && me < before.peers && before.peers >= 2
    ensures Spreading(Start(n, x), me, Entry(1, n.currentTerm, x), {})
  {
  }

  /** Elected by n / 2 others, `me` takes a command and commits it with the same others. */
  lemma ElectAndCommit(c: Cluster, me: nat, voters: seq<nat>, x: Command) returns (c': Cluster, steps: seq<Step>)
    requires me < |c.nodes| && |c.nodes| >= 2 && MayStand(c.nodes[me], me, |c.nodes|)
    requires Supporters(c, me, voters) && |voters| == |c.nodes| / 2
    ensures IsRun(c, steps) && c' == Exec(c, steps) && NoCrash(steps) && |c'.nodes| == |c.nodes|
    ensures var e := Entry(1, c.nodes[me].currentTerm + 1, x);
            && Spreading(c'.nodes[me], me, e, Elements(voters)) && c'.nodes[me].peers == |c.nodes| && c'.nodes[me].commitIndex == 1
            && (forall v :: v in voters ==> Holds(c'.nodes[v], e))
            && (forall w: nat :: w < |c.nodes| && w != me && w !in voters ==> c'.nodes[w] == c.nodes[w])
  {
    hide MayVote, Voted, Exec, IsRun, Spreading, Holds, Blank, ElectionSteps;
    BlankVotes(c, me, voters);
    var n := c.nodes[me];
    var ask := StartElection(n).1;
    var c1 := Elected(c, me, voters);
    var c2 := Do(c1, Propose(me, x));
    One(c1, Propose(me, x));
    var e := Entry(1, n.currentTerm + 1, x);
    FreshLeader(c1.nodes[me], n, me, x);
    forall i | 0 <= i < |voters|
      ensures Blank(c2.nodes[voters[i]], e.term)
    {
      BlankStays(c.nodes[voters[i]], ask, n.currentTerm);
    }
    var more;
    c', more := Spread(c2, me, e, voters);
    ElementsCount(voters);
    CommittedNow(c'.nodes[me], me, e, Elements(voters));
    Chain(c, ElectionSteps(n, me, voters), [Propose(me, x)]);
    Chain(c, ElectionSteps(n, me, voters) + [Propose(me, x)], more);
    steps := ElectionSteps(n, me, voters) + [Propose(me, x)] + more;
    ElectionNoCrash(n, me, voters);
  }

  lemma CommittedNow(n: Node, me: nat, e: Entry, done: set<nat>)
    requires Spreading(n, me, e, done) && |done| >= n.peers / 2
    ensures n.commitIndex == 1
  {
  }

  lemma ElectionNoCrash(n: Node, me: nat, voters: seq<nat>)
    ensures NoCrash(ElectionSteps(n, me, voters))
  {
    AskedNoCrash(voters, me, StartElection(n).1);
  }

  // ---------- The crash ----------

  /** Servers from, from + 1, ..., `count` of them. */
  function Range(from: nat, count: nat): (s: seq<nat>)
    ensures |s| == count && Distinct(s) && forall i :: 0 <= i < count ==> s[i] == from + i
  {
    seq(count, i requires 0 <= i < count => from + i)
  }

  lemma RangeHas(from: nat, count: nat)
    ensures forall x: nat :: x in Range(from, count) <==> from <= x < from + count
  {
    forall x: nat | from <= x < from + count
      ensures x in Range(from, count)
    {
      assert Range(from, count)[x - from] == x;
    }
  }

  lemma FreshServers(n: nat, me: nat, voters: seq<nat>)
    requires me < n && Distinct(voters) && forall i :: 0 <= i < |voters| ==> voters[i] < n && voters[i] != me
    ensures MayStand(Init(n).nodes[me], me, n) && Supporters(Init(n), me, voters)
  {
  }

  /** Server 0 leads term 1 and commits x with the help of servers 1 to n / 2. */
  lemma BareCommit(n: nat, x: Command) returns (c: Cluster, steps: seq<Step>)
    requires n >= 2
    ensures IsRun(Init(n), steps) && c == Exec(Init(n), steps) && NoCrash(steps) && |c.nodes| == n
    ensures Spreading(c.nodes[0], 0, Entry(1, 1, x), Elements(Range(1, n / 2))) && c.nodes[0].commitIndex == 1
    ensures forall v :: 1 <= v <= n / 2 ==> Holds(c.nodes[v], Entry(1, 1, x))
    ensures forall v :: n / 2 < v < n ==> c.nodes[v] == Boot(v, n)
  {
    hide Exec, IsRun, Spreading, Holds, Elements, MayStand, Supporters;
    RangeHas(1, n / 2);
    FreshServers(n, 0, Range(1, n / 2));
    c, steps := ElectAndCommit(Init(n), 0, Range(1, n / 2), x);
  }

  /**
   * The crash of that leader, which has stored nothing of x, is durable exactly when n is even:
   * then the others that hold x are half of the servers.
   */
  lemma BareCommitDurableIff(n: nat, x: Command, c: Cluster)
    requires n >= 2 && |c.nodes| == n
    requires Spreading(c.nodes[0], 0, Entry(1, 1, x), Elements(Range(1, n / 2))) && c.nodes[0].commitIndex == 1
    requires forall v :: 1 <= v <= n / 2 ==> Holds(c.nodes[v], Entry(1, 1, x))
    requires forall v :: n / 2 < v < n ==> c.nodes[v] == Boot(v, n)
    ensures Durable(c, CrashRestart(0)) <==> n % 2 == 0
  {
    var b := Elements(Range(1, n / 2));
    ElementsCount(Range(1, n / 2));
    RangeHas(1, n / 2);
    forall v | 0 <= v < n
      ensures v in Backers(c, 0) <==> v in b
    {
    }
    assert Backers(c, 0) == b;
  }

  /** Server 0 after the crash, and the last server once it has stood for term 1 in vain. */
  lemma AfterCrash(c: Cluster, n: nat, x: Command) returns (c': Cluster)
    requires n >= 3 && n % 2 == 1 && |c.nodes| == n && c.nodes[n - 1] == Boot(n - 1, n)
    requires Spreading(c.nodes[0], 0, Entry(1, 1, x), Elements(Range(1, n / 2))) && c.nodes[0].stable.term == 1
    requires forall v :: n / 2 < v < n ==> c.nodes[v] == Boot(v, n)
    ensures IsRun(c, [CrashRestart(0)] + [Elect(n - 1)]) && c' == Exec(c, [CrashRestart(0)] + [Elect(n - 1)])
    ensures |c'.nodes| == n && c'.nodes[n - 1].currentTerm == 1 && MayStand(c'.nodes[n - 1], n - 1, n)
    ensures Supporters(c', n - 1, [0] + Range(n / 2 + 1, n / 2 - 1))
  {
    hide Exec, IsRun;
    var c1 := Do(c, CrashRestart(0));
    c' := Do(c1, Elect(n - 1));
    One(c, CrashRestart(0));
    One(c1, Elect(n - 1));
    Chain(c, [CrashRestart(0)], [Elect(n - 1)]);
  }

  /**
   * For odd n the crash can lose the entry: the run goes on without another crash until index 1
   * is committed with y on the last server, where server 0 had committed x before.
   */
  lemma LostCommit(n: nat, x: Command, y: Command) returns (steps: seq<Step>, more: seq<Step>)
    requires n >= 3 && n % 2 == 1
    ensures IsRun(Init(n), steps + ([CrashRestart(0)] + more)) && NoCrash(steps) && NoCrash(more)
    ensures !Durable(Exec(Init(n), steps), CrashRestart(0))
    ensures |Exec(Init(n), steps).nodes| == |Exec(Init(n), steps + ([CrashRestart(0)] + more)).nodes| == n
    ensures var a, b := Exec(Init(n), steps).nodes[0], Exec(Init(n), steps + ([CrashRestart(0)] + more)).nodes[n - 1];
            && a.commitIndex == 1 && a.logs == [Placeholder, Entry(1, 1, x)]
            && b.commitIndex == 1 && b.logs == [Placeholder, Entry(1, 2, y)]
  {
    hide Exec, IsRun, Holds, MayStand, Supporters, Durable;
    var c;
    c, steps := BareCommit(n, x);
    BareCommitDurableIff(n, x, c);
    StoredTerm(n, steps, 0);
    RangeHas(n / 2 + 1, n / 2 - 1);
    var c1 := AfterCrash(c, n, x);
    var c2, last := ElectAndCommit(c1, n - 1, [0] + Range(n / 2 + 1, n / 2 - 1), y);
    var crash := [CrashRestart(0)] + [Elect(n - 1)];
    more := [Elect(n - 1)] + last;
    Chain(c, crash, last);
    assert crash + last == [CrashRestart(0)] + more;
    Chain(Init(n), steps, crash + last);
  }

  lemma StoredTerm(n: nat, steps: seq<Step>, p: nat)
    requires p < n && IsRun(Init(n), steps)
    ensures |Exec(Init(n), steps).nodes| == n
    ensures Exec(Init(n), steps).nodes[p].stable.term == Exec(Init(n), steps).nodes[p].currentTerm
  {
    hide Exec, IsRun;
    E.RunOk(n, steps);
    E.GetNode(Exec(Init(n), steps), p);
  }

  // ---------- And when it cannot ----------

  /** A run is durable if its crashes are. */
  lemma {:induction false} DurableJoin(c: Cluster, steps: seq<Step>, more: seq<Step>)
    requires IsDurableRun(c, steps) && NoCrash(more)
    ensures IsDurableRun(c, steps + more)
    decreases |more|
  {
    hide Do, Exec, Durable;
    if more == [] {
      assert steps + more == steps;
    } else {
      var init := more[..|more| - 1];
      DurableJoin(c, steps, init);
      assert (steps + more)[..|steps + more| - 1] == steps + init;
      NotACrash(Exec(c, steps + init), Last(more));
    }
  }

  lemma NotACrash(c: Cluster, s: Step)
    requires !s.CrashRestart?
    ensures Durable(c, s)
  {
  }

  lemma DurableCrash(c: Cluster, steps: seq<Step>, p: nat)
    requires IsDurableRun(c, steps) && Durable(Exec(c, steps), CrashRestart(p))
    ensures IsDurableRun(c, steps + [CrashRestart(p)])
  {
    hide Exec, Durable;
    assert (steps + [CrashRestart(p)])[..|steps + [CrashRestart(p)]| - 1] == steps;
  }

  /**
   * For even n nothing is lost: whatever happens after that crash, short of another, x is the
   * first command of the service state of every server that commits index 1, compacted or not.
   */
  lemma KeptCommit(n: nat, x: Command, more: seq<Step>, q: nat) returns (steps: seq<Step>)
    requires n >= 2 && n % 2 == 0 && q < n && NoCrash(more)
    ensures IsRun(Init(n), steps) && NoCrash(steps) && |Exec(Init(n), steps).nodes| == n
    ensures var a := Exec(Init(n), steps).nodes[0];
            a.commitIndex == 1 && a.logs == [Placeholder, Entry(1, 1, x)] && a.stable.logs == [Placeholder]
    ensures IsRun(Init(n), steps + ([CrashRestart(0)] + more)) ==>
              && |Exec(Init(n), steps + ([CrashRestart(0)] + more)).nodes| == n
              && var b := Exec(Init(n), steps + ([CrashRestart(0)] + more)).nodes[q];
                 b.commitIndex >= 1 ==>
                   && |ServiceState(b, b.commitIndex)| == b.commitIndex && ServiceState(b, b.commitIndex)[0] == x
                   && (FirstIndex(b.logs) == 0 ==> |b.logs| > 1 && b.logs[1] == Entry(1, 1, x))
  {
    hide Exec, IsRun, Holds, MayStand, Supporters, Durable, IsDurableRun, ServiceState;
    var c;
    c, steps := BareCommit(n, x);
    BareCommitDurableIff(n, x, c);
    if IsRun(Init(n), steps + ([CrashRestart(0)] + more)) {
      DurableStart(Init(n));
      DurableJoin(Init(n), [], steps);
      assert [] + steps == steps;
      DurableCrash(Init(n), steps, 0);
      DurableJoin(Init(n), steps + [CrashRestart(0)], more);
      assert steps + [CrashRestart(0)] + more == steps + ([CrashRestart(0)] + more);
      StoredTerm(n, steps + ([CrashRestart(0)] + more), q);
      var b := Exec(Init(n), steps + ([CrashRestart(0)] + more)).nodes[q];
      if b.commitIndex >= 1 {
        FirstCommand(n, x, steps, [CrashRestart(0)] + more, q);
        if FirstIndex(b.logs) == 0 {
          Safety.StateMachineSafety(n, steps, [CrashRestart(0)] + more, 0, q, 1);
        }
      }
    }
  }

  lemma FirstCommand(n: nat, x: Command, steps: seq<Step>, more: seq<Step>, q: nat)
    requires n > 0 && q < n && IsRun(Init(n), steps + more) && IsDurableRun(Init(n), steps + more)
    requires var a := Exec(Init(n), steps).nodes[0];
             a.commitIndex == 1 && a.logs == [Placeholder, Entry(1, 1, x)] && a.snapshot == []
    requires Exec(Init(n), steps + more).nodes[q].commitIndex >= 1
    ensures var b := Exec(Init(n), steps + more).nodes[q];
            |ServiceState(b, b.commitIndex)| == b.commitIndex && ServiceState(b, b.commitIndex)[0] == x
  {
    hide Exec, IsRun, IsDurableRun;
    var a, b := Exec(Init(n), steps).nodes[0], Exec(Init(n), steps + more).nodes[q];
    Bounds.IndicesLegal(n, steps + more, q, q);
    Safety.ServiceAgreement(n, steps, more, 0, q, 1, b.commitIndex);
    assert ServiceState(a, 1) == [] + Commands([Entry(1, 1, x)]);
  }

  lemma DurableStart(c: Cluster)
    ensures IsDurableRun(c, [])
  {
  }
}
