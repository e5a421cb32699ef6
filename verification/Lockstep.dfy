/**
 * Runs made of whole exchanges: a leader sends one message to a peer, the peer handles it and
 * the leader handles the reply; and an election with the votes of chosen servers.
 */
module Lockstep {
  import opened Types
  import opened LogStore
  import opened Rpc
  import opened Handlers
  import opened Cluster

  // ---------- Putting runs together ----------

  /** Two runs, the second starting where the first ends, are one run. */
  lemma {:induction false} Chain(c: Cluster, steps: seq<Step>, more: seq<Step>)
    requires IsRun(c, steps) && IsRun(Exec(c, steps), more)
    ensures IsRun(c, steps + more) && Exec(c, steps + more) == Exec(Exec(c, steps), more)
    decreases |more|
  {
    hide Do, Enabled;
    if more == [] {
      assert steps + more == steps;
    } else {
      Chain(c, steps, more[..|more| - 1]);
      assert (steps + more)[..|steps + more| - 1] == steps + more[..|more| - 1];
      assert Last(steps + more) == Last(more);
    }
  }

  lemma NoSteps(c: Cluster)
    ensures IsRun(c, []) && Exec(c, []) == c
  {
  }

  lemma One(c: Cluster, s: Step)
    requires Enabled(c, s)
    ensures IsRun(c, [s]) && s.p < |c.nodes| && Exec(c, [s]) == Do(c, s)
  {
    hide Do;
    NoSteps(c);
    assert Last([s]) == s && [s][..|[s]| - 1] == [];
  }

  lemma Three(c: Cluster, s: Step, t: Step, u: Step)
    requires Enabled(c, s) && s.p < |c.nodes|
    requires var d := Do(c, s);
             && Enabled(d, t) && t.p < |d.nodes|
             && var e := Do(d, t);
                Enabled(e, u) && u.p < |e.nodes|
    ensures IsRun(c, [s, t, u]) && Exec(c, [s, t, u]) == Do(Do(Do(c, s), t), u)
  {
    hide Do, Enabled, Exec, IsRun;
    var d := Do(c, s);
    var e := Do(d, t);
    One(c, s);
    One(d, t);
    One(e, u);
    Chain(c, [s], [t]);
    Chain(c, [s] + [t], [u]);
    assert [s] + [t] + [u] == [s, t, u];
  }

  // ---------- One exchange ----------

  function ExchangeSteps(c: Cluster, p: nat, q: nat): seq<Step>
    requires p < |c.nodes| && q < |c.nodes|
  {
    match ReplicateOneRound(c.nodes[p], q)
    case Silent => []
    case Entries(a) => [Replicate(p, q), OnAskAppend(q, a), OnReplyAppend(p, q, a, HandleAppend(c.nodes[q], a).1)]
    case Snap(a) => [Replicate(p, q), OnAskSnap(q, a), OnReplySnap(p, q, a, HandleSnap(c.nodes[q], a).1)]
  }

  /** The cluster after one exchange of p with q. */
  function Exchange(c: Cluster, p: nat, q: nat): Cluster
    requires p < |c.nodes| && q < |c.nodes|
  {
    Exec(c, ExchangeSteps(c, p, q))
  }

  /** The cluster after j exchanges. */
  function Exchanges(c: Cluster, p: nat, q: nat, j: nat): (c': Cluster)
    requires p < |c.nodes| && q < |c.nodes|
    ensures |c'.nodes| == |c.nodes|
  {
    if j == 0 then c else Exchange(Exchanges(c, p, q, j - 1), p, q)
  }

  function ExchangesSteps(c: Cluster, p: nat, q: nat, j: nat): seq<Step>
    requires p < |c.nodes| && q < |c.nodes|
  {
    if j == 0 then [] else ExchangesSteps(c, p, q, j - 1) + ExchangeSteps(Exchanges(c, p, q, j - 1), p, q)
  }

  predicate MayTalk(c: Cluster, p: nat, q: nat) {
    p < |c.nodes| && q < |c.nodes| && p != q && c.nodes[p].me == p
  }

  lemma AppendExchange(c: Cluster, p: nat, q: nat, a: AppendRequest)
    requires MayTalk(c, p, q) && ReplicateOneRound(c.nodes[p], q) == Entries(a)
    ensures IsRun(c, ExchangeSteps(c, p, q))
    ensures var c', f := Exchange(c, p, q), c.nodes[q];
            && |c'.nodes| == |c.nodes|
            && c'.nodes[q] == HandleAppend(f, a).0
            && c'.nodes[p] == HandleAppendResponse(c.nodes[p], q, a, HandleAppend(f, a).1)
            && forall w :: 0 <= w < |c.nodes| && w != p && w != q ==> c'.nodes[w] == c.nodes[w]
  {
    hide HandleAppend, HandleAppendResponse;
    var s, t, u := Replicate(p, q), OnAskAppend(q, a), OnReplyAppend(p, q, a, HandleAppend(c.nodes[q], a).1);
    assert a.leader == p;
    Three(c, s, t, u);
  }

  lemma SnapExchange(c: Cluster, p: nat, q: nat, a: SnapRequest)
    requires MayTalk(c, p, q) && ReplicateOneRound(c.nodes[p], q) == Snap(a)
    ensures IsRun(c, ExchangeSteps(c, p, q))
    ensures var c', f := Exchange(c, p, q), c.nodes[q];
            && |c'.nodes| == |c.nodes|
            && c'.nodes[q] == HandleSnap(f, a).0
            && c'.nodes[p] == HandleSnapResponse(c.nodes[p], q, a, HandleSnap(f, a).1)
            && forall w :: 0 <= w < |c.nodes| && w != p && w != q ==> c'.nodes[w] == c.nodes[w]
  {
    hide HandleSnap, HandleSnapResponse;
    var s, t, u := Replicate(p, q), OnAskSnap(q, a), OnReplySnap(p, q, a, HandleSnap(c.nodes[q], a).1);
    assert a.leader == p;
    Three(c, s, t, u);
  }

  lemma SameName(c: Cluster, p: nat, q: nat)
    requires MayTalk(c, p, q)
    ensures IsRun(c, ExchangeSteps(c, p, q)) && MayTalk(Exchange(c, p, q), p, q)
  {
    match ReplicateOneRound(c.nodes[p], q) {
      case Silent => NoSteps(c);
      case Entries(a) =>
        AppendExchange(c, p, q, a);
        ReplyKeepsName(c.nodes[p], q, a, HandleAppend(c.nodes[q], a).1);
      case Snap(a) =>
        SnapExchange(c, p, q, a);
    }
  }

  lemma ReplyKeepsName(n: Node, q: nat, a: AppendRequest, r: AppendResponse)
    ensures HandleAppendResponse(n, q, a, r).me == n.me
  {
    hide NextAfter;
  }

  /** The exchanges are a run of the cluster. */
  lemma {:induction false} ExchangesRun(c: Cluster, p: nat, q: nat, j: nat)
    requires MayTalk(c, p, q)
    ensures IsRun(c, ExchangesSteps(c, p, q, j)) && Exec(c, ExchangesSteps(c, p, q, j)) == Exchanges(c, p, q, j)
    ensures MayTalk(Exchanges(c, p, q, j), p, q)
    decreases j
  {
    hide Exec, IsRun, ExchangeSteps;
    if j == 0 {
      NoSteps(c);
    } else {
      ExchangesRun(c, p, q, j - 1);
      var mid := Exchanges(c, p, q, j - 1);
      SameName(mid, p, q);
      Chain(c, ExchangesSteps(c, p, q, j - 1), ExchangeSteps(mid, p, q));
    }
  }

  // ---------- An election ----------

  predicate Distinct(s: seq<nat>) {
    forall i, j :: 0 <= i < j < |s| ==> s[i] != s[j]
  }

  /** v has not voted in the term or a later one, and takes the candidate's log for good enough. */
  predicate MayVote(f: Node, ask: VoteRequest) {
    f.currentTerm < ask.term && IsLogUpToDate(f.logs, ask.lastTerm, ask.lastIndex)
  }

  predicate Electorate(c: Cluster, me: nat, voters: seq<nat>, ask: VoteRequest) {
    Distinct(voters) && forall i :: 0 <= i < |voters| ==> voters[i] < |c.nodes| && voters[i] != me && MayVote(c.nodes[voters[i]], ask)
  }

  function Asked(voters: seq<nat>, me: nat, ask: VoteRequest): seq<Step> {
    if voters == [] then []
    else
      var v := Last(voters);
      Asked(voters[..|voters| - 1], me, ask) + ([OnAskVote(v, ask)] + [OnReplyVote(me, v, ask, VoteResponse(ask.term, true))])
  }

  function Voted(f: Node, ask: VoteRequest): Node {
    Persist(f.(role := Follower, currentTerm := ask.term, votedFor := ask.cand))
  }

  function Counted(n: Node, votes: nat, answered: set<nat>): Node {
    n.(grantedVotes := votes, answered := answered)
  }

  lemma OneVote(c: Cluster, me: nat, v: nat, ask: VoteRequest) returns (c': Cluster)
    requires me < |c.nodes| && v < |c.nodes| && v != me && MayVote(c.nodes[v], ask) && AskVote(ask) in c.net && ask.cand == me
    requires var n := c.nodes[me]; n.role == Candidate && n.currentTerm == ask.term && v !in n.answered
    ensures var steps := [OnAskVote(v, ask)] + [OnReplyVote(me, v, ask, VoteResponse(ask.term, true))];
            IsRun(c, steps) && c' == Exec(c, steps)
    ensures |c'.nodes| == |c.nodes| && AskVote(ask) in c'.net
    ensures c'.nodes[v] == Voted(c.nodes[v], ask)
    ensures var n := c.nodes[me];
            var n1 := Counted(n, n.grantedVotes + 1, n.answered + {v});
            c'.nodes[me] == if n1.grantedVotes > n.peers / 2 then ChangeState(n1, Leader) else n1
    ensures forall w :: 0 <= w < |c.nodes| && w != me && w != v ==> c'.nodes[w] == c.nodes[w]
  {
    var yes := VoteResponse(ask.term, true);
    VoteIs(c.nodes[v], ask);
    var c1 := Do(c, OnAskVote(v, ask));
    c' := Do(c1, OnReplyVote(me, v, ask, yes));
    One(c, OnAskVote(v, ask));
    One(c1, OnReplyVote(me, v, ask, yes));
    Chain(c, [OnAskVote(v, ask)], [OnReplyVote(me, v, ask, yes)]);
  }

  lemma VoteIs(f: Node, ask: VoteRequest)
    requires MayVote(f, ask)
    ensures HandleVoteRequest(f, ask) == (Voted(f, ask), VoteResponse(ask.term, true))
  {
  }

  /** Fewer votes than make a leader: the candidate has counted them all. */
  lemma {:induction false} Canvass(c: Cluster, me: nat, voters: seq<nat>, ask: VoteRequest) returns (c': Cluster, answered: set<nat>)
    requires me < |c.nodes| && Electorate(c, me, voters, ask) && AskVote(ask) in c.net && ask.cand == me
    requires var n := c.nodes[me];
             n.role == Candidate && n.currentTerm == ask.term && n.answered == {} && n.grantedVotes + |voters| <= n.peers / 2
    ensures IsRun(c, Asked(voters, me, ask)) && c' == Exec(c, Asked(voters, me, ask))
    ensures |c'.nodes| == |c.nodes| && AskVote(ask) in c'.net
    ensures c'.nodes[me] == Counted(c.nodes[me], c.nodes[me].grantedVotes + |voters|, answered)
    ensures forall w :: w in answered ==> w in voters
    ensures forall i :: 0 <= i < |voters| ==> c'.nodes[voters[i]] == Voted(c.nodes[voters[i]], ask)
    ensures forall w: nat :: w < |c.nodes| && w != me && w !in voters ==> c'.nodes[w] == c.nodes[w]
    decreases |voters|
  {
    hide MayVote, Voted, Exec, IsRun;
    if voters == [] {
      NoSteps(c);
      c', answered := c, {};
    } else {
      var init, v := voters[..|voters| - 1], Last(voters);
      var mid, some := Canvass(c, me, init, ask);
      assert v !in init;
      c' := OneVote(mid, me, v, ask);
      answered := some + {v};
      Chain(c, Asked(init, me, ask), [OnAskVote(v, ask)] + [OnReplyVote(me, v, ask, VoteResponse(ask.term, true))]);
    }
  }

  function ElectionSteps(n: Node, me: nat, voters: seq<nat>): seq<Step> {
    [Elect(me)] + Asked(voters, me, StartElection(n).1)
  }

  /** A leader fresh from its election. */
  predicate NewLeader(n: Node, before: Node) {
    && n == before.(currentTerm := before.currentTerm + 1, votedFor := before.me, role := Leader,
                    nextIndex := seq(before.peers, _ => LastIndex(before) + 1), matchIndex := seq(before.peers, _ => 0),
                    grantedVotes := n.grantedVotes, answered := n.answered, stable := n.stable)
    && n.stable == Stable(n.currentTerm, n.votedFor, n.logs)
  }

  /** With the votes of half of the servers besides itself, a candidate leads. */
  lemma Elected(c: Cluster, me: nat, voters: seq<nat>) returns (c': Cluster)
    requires me < |c.nodes| && c.nodes[me].me == me && c.nodes[me].peers == |c.nodes| && c.nodes[me].role != Leader
    requires |voters| > 0 && |voters| == |c.nodes| / 2 && Electorate(c, me, voters, StartElection(c.nodes[me]).1)
    ensures var steps := ElectionSteps(c.nodes[me], me, voters); IsRun(c, steps) && c' == Exec(c, steps)
    ensures |c'.nodes| == |c.nodes| && NewLeader(c'.nodes[me], c.nodes[me]) && AskVote(StartElection(c.nodes[me]).1) in c'.net
    ensures forall i :: 0 <= i < |voters| ==>
              c'.nodes[voters[i]] == Voted(c.nodes[voters[i]], StartElection(c.nodes[me]).1)
    ensures forall w: nat :: w < |c.nodes| && w != me && w !in voters ==> c'.nodes[w] == c.nodes[w]
  {
    hide MayVote, Voted, Exec, IsRun;
    var n := c.nodes[me];
    var ask := StartElection(n).1;
    var c1 := Do(c, Elect(me));
    One(c, Elect(me));
    var init, v := voters[..|voters| - 1], Last(voters);
    assert v !in init;
    var c2, answered := Canvass(c1, me, init, ask);
    c' := OneVote(c2, me, v, ask);
    Chain(c1, Asked(init, me, ask), [OnAskVote(v, ask)] + [OnReplyVote(me, v, ask, VoteResponse(ask.term, true))]);
    Chain(c, [Elect(me)], Asked(voters, me, ask));
  }
}
