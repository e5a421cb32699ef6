/**
 * Log Matching in runs without snapshots, with any crash at any moment: it does not need what a
 * crash loses to be uncommitted, because the leader of a term never leads that term again.
 */
module Matching {
  import opened Types
  import opened LogStore
  import opened Rpc
  import opened Median
  import opened Handlers
  import opened Cluster
  import B = Bounds
  import D = Durability
  import E = Election

  /** The log of each term's leader so far, and who it is. */
  datatype Book = Book(llog: map<nat, seq<Entry>>, lead: map<nat, nat>)

  ghost predicate From(b: Book, log: seq<Entry>, p: nat)
    requires p < |log|
  {
    log[p].term in b.llog && Agree(log, b.llog[log[p].term], p + 1)
  }

  /** Every entry is what its term's leader had, with all before it. */
  ghost predicate Kept(b: Book, log: seq<Entry>) {
    && |log| > 0 && log[0] == Placeholder && Numbered(log)
    && forall p :: 0 <= p < |log| ==> From(b, log, p)
  }

  /** No entry has a term after t. */
  predicate UpTo(log: seq<Entry>, t: nat) {
    forall p :: 0 <= p < |log| ==> log[p].term <= t
  }

  ghost predicate BookOk(b: Book) {
    && 0 in b.llog && b.llog[0] == [Placeholder] && b.lead.Keys == b.llog.Keys - {0}
    && forall t :: t in b.llog ==> Kept(b, b.llog[t]) && UpTo(b.llog[t], t)
  }

  ghost predicate NodeOk(b: Book, n: Node, p: nat) {
    && Kept(b, n.logs) && Kept(b, n.stable.logs) && UpTo(n.logs, n.currentTerm) && UpTo(n.stable.logs, n.currentTerm)
    && (n.role == Leader ==>
          && n.currentTerm in b.lead && b.lead[n.currentTerm] == p && n.currentTerm in b.llog && b.llog[n.currentTerm] == n.logs)
  }

  predicate SentAt(log: seq<Entry>, a: AppendRequest, k: nat) {
    && 0 <= a.prevIndex < k <= |log| && a.prevTerm == log[a.prevIndex].term && a.entries == log[a.prevIndex + 1..k]
  }

  ghost predicate AskOk(b: Book, a: AppendRequest) {
    a.term in b.llog && exists k: nat :: SentAt(b.llog[a.term], a, k)
  }

  ghost predicate Inv(c: Cluster, b: Book) {
    && BookOk(b)
    && (forall p :: 0 <= p < |c.nodes| ==> NodeOk(b, c.nodes[p], p))
    && (forall t :: t in b.lead ==> B.Elected(c, t, b.lead[t]))
    && (forall to, a :: AskAppend(to, a) in c.net ==> AskOk(b, a))
  }

  ghost predicate Grows(b: Book, b': Book) {
    && (forall t :: t in b.llog ==> t in b'.llog && b.llog[t] <= b'.llog[t])
    && (forall t :: t in b.lead ==> t in b'.lead && b'.lead[t] == b.lead[t])
  }

  lemma KeptGrows(b: Book, b': Book, log: seq<Entry>)
    requires Grows(b, b') && Kept(b, log)
    ensures Kept(b', log)
  {
    forall p | 0 <= p < |log|
      ensures From(b', log, p)
    {
      assert From(b, log, p);
    }
  }

  lemma AskGrows(b: Book, b': Book, a: AppendRequest)
    requires Grows(b, b') && AskOk(b, a)
    ensures AskOk(b', a)
  {
    var k: nat :| SentAt(b.llog[a.term], a, k);
    assert b'.llog[a.term][a.prevIndex + 1..k] == b.llog[a.term][a.prevIndex + 1..k];
    assert SentAt(b'.llog[a.term], a, k);
  }

  /** No step of a snapshot's. */
  predicate Plain(s: Step) {
    !s.TakeSnapshot? && !s.Install?
  }

  // ---------- One server moves ----------

  /** Server p moved, the book grew, and what was sent is in it. */
  lemma Moved(c: Cluster, c': Cluster, b: Book, b': Book, p: nat)
    requires Inv(c, b) && Grows(b, b') && BookOk(b') && p < |c.nodes| == |c'.nodes| && c.votes <= c'.votes
    requires forall q :: 0 <= q < |c.nodes| && q != p ==> c'.nodes[q] == c.nodes[q]
    requires NodeOk(b', c'.nodes[p], p) && B.Onward(c.nodes[p], c'.nodes[p])
    requires forall t :: t in b.llog && b'.llog[t] != b.llog[t] ==> t in b.lead && b.lead[t] == p
    requires forall t :: t in b'.lead && t !in b.lead ==> B.Elected(c', t, b'.lead[t])
    requires forall to, a :: AskAppend(to, a) in c'.net && AskAppend(to, a) !in c.net ==> AskOk(b', a)
    ensures Inv(c', b')
  {
    hide BookOk, Kept, B.Elected, AskOk, B.Onward;
    forall q | 0 <= q < |c.nodes|
      ensures NodeOk(b', c'.nodes[q], q)
    {
      if q != p {
        assert NodeOk(b, c.nodes[q], q);
        KeptGrows(b, b', c.nodes[q].logs);
        KeptGrows(b, b', c.nodes[q].stable.logs);
      }
    }
    forall t | t in b.lead
      ensures B.Elected(c', t, b.lead[t])
    {
      B.ElectedOn(c, c', p, t, b.lead[t]);
    }
    forall to, a | AskAppend(to, a) in c'.net
      ensures AskOk(b', a)
    {
      if AskAppend(to, a) in c.net {
        AskGrows(b, b', a);
      }
    }
  }

  /** The log is the old one or the stored one, and leadership is kept or lost. */
  predicate Quiet(n: Node, n': Node) {
    && (n'.logs == n.logs || (n'.logs == n.stable.logs && n'.role != Leader))
    && (n'.stable.logs == n.logs || n'.stable.logs == n.stable.logs)
    && (n'.role == Leader ==> n.role == Leader)
  }

  predicate Wins(n: Node, n': Node) {
    n.role == Candidate && n'.role == Leader && n'.currentTerm == n.currentTerm && n'.logs == n.logs && n'.stable == n.stable
  }

  lemma QuietOk(b: Book, n: Node, n': Node, p: nat)
    requires NodeOk(b, n, p) && Quiet(n, n') && B.Onward(n, n')
    ensures NodeOk(b, n', p)
  {
    hide Kept, B.Keeps;
  }

  // ---------- The four steps that matter ----------

  lemma WinBook(c: Cluster, c': Cluster, b: Book, p: nat) returns (b': Book)
    requires Inv(c, b) && E.Inv(c') && p < |c.nodes| == |c'.nodes| && c'.votes == c.votes && c'.net == c.net
    requires forall q :: 0 <= q < |c.nodes| && q != p ==> c'.nodes[q] == c.nodes[q]
    requires Wins(c.nodes[p], c'.nodes[p]) && B.Onward(c.nodes[p], c'.nodes[p]) && c.nodes[p].currentTerm > 0
    ensures Inv(c', b') && Grows(b, b')
  {
    hide Kept, E.Inv, E.NodeOk, B.Elected, B.Onward, AskOk;
    var n := c.nodes[p];
    var t := n.currentTerm;
    assert NodeOk(b, n, p);
    E.GetNode(c', p);
    B.LeaderElected(c', p);
    NoLeaderYet(c, c', b, p);
    b' := Book(b.llog[t := n.logs], b.lead[t := p]);
    WinBookOk(b, n.logs, t, p);
    KeptGrows(b, b', n.logs);
    KeptGrows(b, b', n.stable.logs);
    Moved(c, c', b, b', p);
  }

  /** Had someone led the term before, it was the winner itself, which has not: it still stands. */
  lemma NoLeaderYet(c: Cluster, c': Cluster, b: Book, p: nat)
    requires Inv(c, b) && E.Inv(c') && p < |c.nodes| == |c'.nodes| && c'.votes == c.votes && Wins(c.nodes[p], c'.nodes[p])
    requires c.nodes[p].currentTerm > 0
    ensures c.nodes[p].currentTerm !in b.lead && c.nodes[p].currentTerm !in b.llog
  {
    hide Kept, E.Inv, E.Supporters, AskOk;
    var t := c.nodes[p].currentTerm;
    E.GetNode(c', p);
    OneVoter(c');
    if t in b.lead {
      assert B.Elected(c, t, b.lead[t]);
      SameSupport(c, c', t, b.lead[t]);
      E.OneMajority(c', t, p, b.lead[t]);
    }
  }

  lemma OneVoter(c: Cluster)
    requires E.Inv(c)
    ensures E.OneVote(c)
  {
  }

  lemma SameSupport(c: Cluster, c': Cluster, t: nat, q: nat)
    requires c'.votes == c.votes && |c'.nodes| == |c.nodes|
    ensures E.Supporters(c', t, q) == E.Supporters(c, t, q)
  {
  }

  lemma WinBookOk(b: Book, log: seq<Entry>, t: nat, p: nat)
    requires BookOk(b) && Kept(b, log) && UpTo(log, t) && t !in b.llog
    ensures var b' := Book(b.llog[t := log], b.lead[t := p]); BookOk(b') && Grows(b, b')
  {
    var b' := Book(b.llog[t := log], b.lead[t := p]);
    forall u | u in b'.llog
      ensures Kept(b', b'.llog[u])
    {
      KeptGrows(b, b', b'.llog[u]);
    }
  }

  lemma ProposeBook(c: Cluster, b: Book, p: nat, cmd: Command) returns (b': Book)
    requires Inv(c, b) && E.Inv(c) && p < |c.nodes| && B.Onward(c.nodes[p], Do(c, Propose(p, cmd)).nodes[p])
    ensures Inv(Do(c, Propose(p, cmd)), b') && Grows(b, b')
  {
    hide Kept, E.Inv, E.NodeOk, B.Elected, B.Onward, AskOk;
    var c', n := Do(c, Propose(p, cmd)), c.nodes[p];
    assert NodeOk(b, n, p);
    E.GetNode(c, p);
    Shape(c, p);
    if n.role == Leader {
      var e := Entry(|n.logs|, n.currentTerm, cmd);
      LastNumbered(b, n.logs);
      b' := b.(llog := b.llog[n.currentTerm := n.logs + [e]]);
      Appended(b, n.logs, e);
      KeptGrows(b, b', n.stable.logs);
      Moved(c, c', b, b', p);
    } else {
      b' := b;
      Moved(c, c', b, b', p);
    }
  }

  lemma Shape(c: Cluster, p: nat)
    requires p < |c.nodes| && E.NodeOk(c, p)
    ensures var n := c.nodes[p]; n.me == p && n.me < |n.matchIndex| && n.me < |n.nextIndex|
  {
  }

  lemma LastNumbered(b: Book, log: seq<Entry>)
    requires Kept(b, log)
    ensures |log| > 0 && Last(log).index == |log| - 1
  {
  }

  lemma Appended(b: Book, log: seq<Entry>, e: Entry)
    requires BookOk(b) && Kept(b, log) && e.term in b.llog && b.llog[e.term] == log && e.index == |log| && e.term != 0
    ensures var b' := b.(llog := b.llog[e.term := log + [e]]); BookOk(b') && Grows(b, b') && Kept(b', log + [e])
  {
    var b' := b.(llog := b.llog[e.term := log + [e]]);
    KeptGrows(b, b', log);
    forall p | 0 <= p < |log + [e]|
      ensures From(b', log + [e], p)
    {
      if p < |log| {
        assert From(b', log, p);
      }
    }
    forall u | u in b'.llog
      ensures Kept(b', b'.llog[u])
    {
      if u != e.term {
        KeptGrows(b, b', b.llog[u]);
      }
    }
  }

  lemma ReplicateBook(c: Cluster, b: Book, p: nat, peer: nat)
    requires Inv(c, b) && Enabled(c, Replicate(p, peer)) && B.NodeOk(c.nodes[p])
    ensures Inv(Do(c, Replicate(p, peer)), b)
  {
    hide Kept, B.Elected, B.Onward, B.Shaped, AskOk;
    var c', n := Do(c, Replicate(p, peer)), c.nodes[p];
    assert NodeOk(b, n, p);
    KeptIsLog(b, n.logs);
    LastNumbered(b, n.logs);
    if n.role == Leader && peer < |n.nextIndex| {
      SentIs(b, n, n.nextIndex[peer] - 1);
    }
    B.Unmoved(n);
    Moved(c, c', b, b, p);
  }

  lemma KeptIsLog(b: Book, log: seq<Entry>)
    requires Kept(b, log)
    ensures log[0] == Placeholder && Contiguous(log) && Numbered(log)
  {
  }

  lemma SentIs(b: Book, n: Node, prev: int)
    requires n.logs[0] == Placeholder && prev < |n.logs| && n.currentTerm in b.llog && b.llog[n.currentTerm] == n.logs
    ensures prev >= 0 ==> AskOk(b, GenAppend(n, prev))
  {
    if prev >= 0 {
      assert n.logs[prev + 1..] == n.logs[prev + 1..|n.logs|];
      assert SentAt(n.logs, GenAppend(n, prev), |n.logs|);
    }
  }

  // ---------- Taking a request ----------

  lemma PrefixKept(b: Book, t: nat, k: nat)
    requires BookOk(b) && t in b.llog && 0 < k <= |b.llog[t]|
    ensures Kept(b, b.llog[t][..k])
  {
    var log := b.llog[t][..k];
    forall p | 0 <= p < k
      ensures From(b, log, p)
    {
      assert From(b, b.llog[t], p);
    }
  }

  lemma PrefixUpTo(b: Book, t: nat, k: nat)
    requires BookOk(b) && t in b.llog && k <= |b.llog[t]|
    ensures UpTo(b.llog[t][..k], t)
  {
  }

  lemma KeptDecides(b: Book, log: seq<Entry>, m: seq<Entry>)
    requires Kept(b, log) && Kept(b, m)
    ensures TermsDecide(log, m)
  {
    forall q | 0 <= q < |log| && q < |m| && log[q].term == m[q].term
      ensures Agree(log, m, q + 1)
    {
      assert From(b, log, q) && From(b, m, q);
    }
  }

  lemma NothingCompacted(log: Log)
    requires log[0] == Placeholder
    ensures Compact(log, 0) == log
  {
    assert log == [log[0]] + log[1..];
  }

  /** The log after the splice is the old one or the request's leader's, and both end by its term. */
  lemma TakenLog(b: Book, n: Node, a: AppendRequest)
    requires BookOk(b) && Kept(b, n.logs) && AskOk(b, a)
    requires a.prevIndex >= FirstIndex(n.logs) && MatchLog(n.logs, a.prevTerm, a.prevIndex) && UpTo(n.logs, a.term)
    ensures Kept(b, Splice(n.logs, a.entries)) && UpTo(Splice(n.logs, a.entries), a.term)
  {
    hide BookOk, Kept, Splice, Compact;
    var k: nat :| SentAt(b.llog[a.term], a, k);
    var m := b.llog[a.term][..k];
    var j := a.prevIndex + 1;
    PrefixKept(b, a.term, k);
    PrefixUpTo(b, a.term, k);
    KeptDecides(b, n.logs, m);
    KeptIsLog(b, n.logs);
    KeptIsLog(b, m);
    NothingCompacted(n.logs);
    NothingCompacted(m);
    assert m[j..] == a.entries;
    SpliceCompact(n.logs, 0, m, j);
  }

  lemma AskAppendBook(c: Cluster, b: Book, p: nat, a: AppendRequest)
    requires Inv(c, b) && Enabled(c, OnAskAppend(p, a)) && B.Onward(c.nodes[p], Do(c, OnAskAppend(p, a)).nodes[p])
    ensures Inv(Do(c, OnAskAppend(p, a)), b)
  {
    hide BookOk, Kept, Splice, ScanBack, MatchLog, AskOk, B.Elected, B.Onward;
    var c', n := Do(c, OnAskAppend(p, a)), c.nodes[p];
    assert NodeOk(b, n, p) && AskOk(b, a);
    if a.term >= n.currentTerm && a.prevIndex >= FirstIndex(n.logs) && MatchLog(n.logs, a.prevTerm, a.prevIndex) {
      assert UpTo(n.logs, a.term);
      TakenLog(b, n, a);
    }
    Moved(c, c', b, b, p);
  }

  // ---------- Every step ----------

  lemma QuietMoved(c: Cluster, b: Book, s: Step)
    requires Inv(c, b) && Enabled(c, s) && s.p < |c.nodes| && !s.Replicate?
    requires Quiet(c.nodes[s.p], Do(c, s).nodes[s.p]) && B.Onward(c.nodes[s.p], Do(c, s).nodes[s.p])
    ensures Inv(Do(c, s), b)
  {
    hide BookOk, Kept, B.Elected, AskOk, Do, Quiet, B.Onward;
    E.NewMessages(c, s);
    assert NodeOk(b, c.nodes[s.p], s.p);
    QuietOk(b, c.nodes[s.p], Do(c, s).nodes[s.p], s.p);
    OnlyReplicateAsks(c, s);
    Moved(c, Do(c, s), b, b, s.p);
  }

  lemma OnlyReplicateAsks(c: Cluster, s: Step)
    requires Enabled(c, s) && s.p < |c.nodes| && !s.Replicate?
    ensures forall to, a :: AskAppend(to, a) in Do(c, s).net ==> AskAppend(to, a) in c.net
  {
    hide HandleAppend, HandleVoteRequest, HandleSnap, StartElection;
  }

  /** Neither a snapshot's step nor one that has a case of its own. */
  predicate Other(s: Step) {
    Plain(s) && !s.Propose? && !s.Replicate? && !s.OnAskAppend? && !s.OnReplyVote?
  }

  lemma OtherQuiet(c: Cluster, s: Step)
    requires Enabled(c, s) && s.p < |c.nodes| && Other(s)
    ensures Quiet(c.nodes[s.p], Do(c, s).nodes[s.p])
  {
    hide MedianOf, NextAfter, MatchLog, UpToDate;
  }

  lemma ReplyVoteBook(c: Cluster, b: Book, s: Step) returns (b': Book)
    requires s.p < |c.nodes| && Enabled(c, s) && s.OnReplyVote? && Inv(c, b) && E.Inv(Do(c, s)) && B.NodeOk(c.nodes[s.p])
    requires B.Onward(c.nodes[s.p], Do(c, s).nodes[s.p])
    ensures Inv(Do(c, s), b') && Grows(b, b')
  {
    hide Inv, E.Inv, B.NodeOk, B.Onward, Grows;
    BookGrows(b);
    var n, n' := c.nodes[s.p], Do(c, s).nodes[s.p];
    if n.role == Candidate && n'.role == Leader {
      Standing(n);
      b' := WinBook(c, Do(c, s), b, s.p);
    } else {
      b' := b;
      QuietMoved(c, b, s);
    }
  }

  lemma StepBook(c: Cluster, b: Book, s: Step) returns (b': Book)
    requires Inv(c, b) && E.Inv(c) && B.Inv(c) && D.Stored(c) && Enabled(c, s) && Plain(s)
    ensures Inv(Do(c, s), b') && Grows(b, b')
  {
    hide Inv, E.Inv, B.Inv, D.Stored, B.NodeOk, B.Onward, Quiet, Wins, Do, Grows;
    E.StepOk(c, s);
    E.EnabledServer(c, s);
    B.StepOk(c, s);
    B.GetNode(c, s.p);
    BookGrows(b);
    b' := b;
    match s {
      case Propose(p, cmd) => b' := ProposeBook(c, b, p, cmd);
      case Replicate(p, peer) => ReplicateBook(c, b, p, peer);
      case OnAskAppend(p, a) => AskAppendBook(c, b, p, a);
      case OnReplyVote(_, _, _, _) => b' := ReplyVoteBook(c, b, s);
      case _ =>
        OtherQuiet(c, s);
        QuietMoved(c, b, s);
    }
  }

  lemma Standing(n: Node)
    requires B.NodeOk(n) && n.role == Candidate
    ensures n.currentTerm > 0
  {
  }

  lemma BookGrows(b: Book)
    ensures Grows(b, b)
  {
  }

  // ---------- Runs ----------

  predicate AllPlain(steps: seq<Step>) {
    forall k :: 0 <= k < |steps| ==> Plain(steps[k])
  }

  lemma InitBook(n: nat)
    ensures Inv(Init(n), Book(map[0 := [Placeholder]], map[]))
  {
    var b := Book(map[0 := [Placeholder]], map[]);
    assert From(b, [Placeholder], 0);
  }

  lemma NextBook(n: nat, steps: seq<Step>, b: Book) returns (b': Book)
    requires |steps| > 0 && IsRun(Init(n), steps) && Plain(Last(steps)) && Inv(Exec(Init(n), steps[..|steps| - 1]), b)
    ensures Inv(Exec(Init(n), steps), b') && Grows(b, b')
  {
    hide Do, Enabled, Inv, E.Inv, B.Inv, D.Stored, Grows, Plain;
    var init := steps[..|steps| - 1];
    E.RunOk(n, init);
    B.RunOk(n, init);
    D.StoredIsPrefix(n, init);
    E.EnabledServer(Exec(Init(n), init), Last(steps));
    b' := StepBook(Exec(Init(n), init), b, Last(steps));
  }

  lemma {:induction false} OneBook(n: nat, steps: seq<Step>) returns (b: Book)
    requires IsRun(Init(n), steps) && AllPlain(steps)
    ensures Inv(Exec(Init(n), steps), b) && |Exec(Init(n), steps).nodes| == n
    decreases |steps|
  {
    hide Do, Enabled, Inv, Grows, Plain;
    if steps == [] {
      b := Book(map[0 := [Placeholder]], map[]);
      InitBook(n);
    } else {
      FewerPlain(steps);
      var before := OneBook(n, steps[..|steps| - 1]);
      b := NextBook(n, steps, before);
    }
  }

  /** Two moments of one run. */
  lemma {:induction false} RunBook(n: nat, steps: seq<Step>, more: seq<Step>) returns (b: Book, b': Book)
    requires IsRun(Init(n), steps + more) && AllPlain(steps + more)
    ensures Inv(Exec(Init(n), steps), b) && Inv(Exec(Init(n), steps + more), b') && Grows(b, b')
    ensures |Exec(Init(n), steps).nodes| == |Exec(Init(n), steps + more).nodes| == n
    decreases |more|
  {
    hide Do, Enabled, Inv, Grows, Plain;
    if more == [] {
      assert steps + more == steps;
      b := OneBook(n, steps);
      b' := b;
      BookGrows(b);
    } else {
      var all, init := steps + more, more[..|more| - 1];
      assert all[..|all| - 1] == steps + init;
      FewerPlain(all);
      var mid;
      b, mid := RunBook(n, steps, init);
      b' := NextBook(n, all, mid);
      GrowsOn(b, mid, b');
    }
  }

  lemma FewerPlain(steps: seq<Step>)
    requires AllPlain(steps) && |steps| > 0
    ensures AllPlain(steps[..|steps| - 1]) && Plain(Last(steps))
  {
  }

  lemma GrowsOn(a: Book, b: Book, c: Book)
    requires Grows(a, b) && Grows(b, c)
    ensures Grows(a, c)
  {
  }

  lemma GetNode(c: Cluster, b: Book, p: nat)
    requires Inv(c, b) && p < |c.nodes|
    ensures NodeOk(b, c.nodes[p], p)
  {
  }

  /**
   * Log Matching in runs without snapshots, across servers and moments and whatever crashes
   * lose: the same term at an index means the same entries up to it, and terms never decrease.
   */
  lemma LogMatching(n: nat, steps: seq<Step>, more: seq<Step>, p: nat, q: nat, i: nat)
    requires p < n && q < n && IsRun(Init(n), steps + more) && AllPlain(steps + more)
    requires var a, b := Exec(Init(n), steps).nodes[p], Exec(Init(n), steps + more).nodes[q];
             i < |a.logs| && i < |b.logs| && a.logs[i].term == b.logs[i].term
    ensures var a, b := Exec(Init(n), steps).nodes[p], Exec(Init(n), steps + more).nodes[q];
            && a.logs[..i + 1] == b.logs[..i + 1]
            && forall j, k :: 0 <= j <= k < |a.logs| ==> a.logs[j].term <= a.logs[k].term
  {
    hide Exec, IsRun, Inv, Kept, Grows;
    var book, book' := RunBook(n, steps, more);
    var a, b := Exec(Init(n), steps).nodes[p], Exec(Init(n), steps + more).nodes[q];
    GetNode(Exec(Init(n), steps), book, p);
    GetNode(Exec(Init(n), steps + more), book', q);
    KeptGrows(book, book', a.logs);
    KeptDecides(book', a.logs, b.logs);
    Ascends(Exec(Init(n), steps), book, a.logs);
  }

  /** An entry's term is not after that of any later one, whose leader had both. */
  lemma Ascends(c: Cluster, b: Book, log: seq<Entry>)
    requires Inv(c, b) && Kept(b, log)
    ensures forall j, k :: 0 <= j <= k < |log| ==> log[j].term <= log[k].term
  {
    forall j, k | 0 <= j <= k < |log|
      ensures log[j].term <= log[k].term
    {
      assert From(b, log, k);
      assert UpTo(b.llog[log[k].term], log[k].term);
    }
  }
}
