/**
 * Index and term name an entry: in every run, compaction, installs and any crash included, two
 * entries with the same index and term are the same, wherever and whenever they are seen.  A
 * stale tail breaks Log Matching, but not this.
 */
module Entries {
  import opened Types
  import opened LogStore
  import opened Rpc
  import opened Handlers
  import opened Cluster
  import B = Bounds
  import D = Durability
  import E = Election

  datatype Id = Id(index: nat, term: nat)

  /** What was ever appended, by index and term. */
  type Book = map<Id, Command>

  predicate Known(b: Book, e: Entry) {
    Id(e.index, e.term) in b && b[Id(e.index, e.term)] == e.command
  }

  predicate AllKnown(b: Book, entries: seq<Entry>) {
    forall j :: 0 <= j < |entries| ==> Known(b, entries[j])
  }

  /** Everything after the placeholder is known. */
  predicate LogKnown(b: Book, logs: Log) {
    AllKnown(b, logs[1..])
  }

  /** Some server was elected for the term, and while it leads, its log reaches the index. */
  ghost predicate Reaches(c: Cluster, k: Id, l: nat) {
    B.Elected(c, k.term, l) && (B.Leads(c.nodes[l], k.term) ==> k.index <= LastIndex(c.nodes[l]))
  }

  ghost predicate IdOk(c: Cluster, k: Id) {
    exists l: nat :: Reaches(c, k, l)
  }

  ghost predicate Inv(c: Cluster, b: Book) {
    && (forall p :: 0 <= p < |c.nodes| ==> LogKnown(b, c.nodes[p].logs))
    && (forall to, a :: AskAppend(to, a) in c.net ==> AllKnown(b, a.entries))
    && (forall k :: k in b ==> IdOk(c, k))
  }

  predicate Grows(b: Book, b': Book) {
    forall k :: k in b ==> k in b' && b'[k] == b[k]
  }

  lemma KnownGrows(b: Book, b': Book, entries: seq<Entry>)
    requires Grows(b, b') && AllKnown(b, entries)
    ensures AllKnown(b', entries)
  {
  }

  // ---------- One server moves ----------

  lemma IdStays(c: Cluster, c': Cluster, p: nat, k: Id)
    requires p < |c.nodes| == |c'.nodes| && c.votes <= c'.votes && B.Onward(c.nodes[p], c'.nodes[p])
    requires forall q :: 0 <= q < |c.nodes| && q != p ==> c'.nodes[q] == c.nodes[q]
    requires IdOk(c, k)
    ensures IdOk(c', k)
  {
    hide B.Elected, B.Keeps, B.Onward;
    var l: nat :| Reaches(c, k, l);
    B.ElectedServer(c, k.term, l);
    B.ElectedOn(c, c', p, k.term, l);
    if B.Leads(c'.nodes[l], k.term) && l == p {
      B.LastOn(c.nodes[p].logs, c'.nodes[p].logs);
    }
    B.ElectedServer(c', k.term, l);
    assert Reaches(c', k, l);
  }

  lemma Moved(c: Cluster, c': Cluster, b: Book, b': Book, p: nat)
    requires Inv(c, b) && Grows(b, b') && p < |c.nodes| == |c'.nodes| && c.votes <= c'.votes
    requires forall q :: 0 <= q < |c.nodes| && q != p ==> c'.nodes[q] == c.nodes[q]
    requires B.Onward(c.nodes[p], c'.nodes[p]) && LogKnown(b', c'.nodes[p].logs)
    requires forall to, a :: AskAppend(to, a) in c'.net && AskAppend(to, a) !in c.net ==> AllKnown(b', a.entries)
    requires forall k :: k in b' && k !in b ==> IdOk(c', k)
    ensures Inv(c', b')
  {
    hide AllKnown, B.Onward, IdOk, Grows;
    forall q | 0 <= q < |c.nodes|
      ensures LogKnown(b', c'.nodes[q].logs)
    {
      if q != p {
        KnownGrows(b, b', c.nodes[q].logs[1..]);
      }
    }
    forall to, a | AskAppend(to, a) in c'.net
      ensures AllKnown(b', a.entries)
    {
      if AskAppend(to, a) in c.net {
        KnownGrows(b, b', a.entries);
      }
    }
    forall k | k in b'
      ensures IdOk(c', k)
    {
      if k in b {
        IdStays(c, c', p, k);
      }
    }
  }

  // ---------- What the handlers leave in the log ----------

  /** Entries numbered from `prev` on. */
  predicate After(entries: seq<Entry>, prev: int) {
    forall k :: 0 <= k < |entries| ==> entries[k].index == prev + 1 + k
  }

  /** A splice changes nothing up to the probed index, and leaves only what was known. */
  lemma {:induction false} SplicePrefix(b: Book, logs: Log, entries: seq<Entry>, prev: int)
    requires Contiguous(logs) && InLog(logs, prev) && After(entries, prev) && LogKnown(b, logs) && AllKnown(b, entries)
    ensures var s, j := Splice(logs, entries), prev + 1 - FirstIndex(logs);
            LogKnown(b, s) && |s| >= j && s[..j] == logs[..j]
    decreases |entries|
  {
    hide Known;
    var j := prev + 1 - FirstIndex(logs);
    if entries != [] {
      if MatchLog(logs, entries[0].term, entries[0].index) {
        SplicePrefix(b, logs, entries[1..], prev + 1);
        assert Splice(logs, entries)[..j] == Splice(logs, entries)[..j + 1][..j];
      } else {
        Replaced(b, logs, entries, j);
      }
    }
  }

  /** What it does not replace is the same by index and term, so all of the request is there. */
  lemma {:induction false} SpliceHolds(b: Book, logs: Log, entries: seq<Entry>, prev: int)
    requires Contiguous(logs) && InLog(logs, prev) && After(entries, prev) && LogKnown(b, logs) && AllKnown(b, entries)
    ensures FirstIndex(Splice(logs, entries)) == FirstIndex(logs)
    ensures forall k :: 0 <= k < |entries| ==> HasEntry(Splice(logs, entries), prev + 1 + k, entries[k])
    decreases |entries|
  {
    hide LogKnown, AllKnown, HasEntry;
    var s, j := Splice(logs, entries), prev + 1 - FirstIndex(logs);
    SplicePrefix(b, logs, entries, prev);
    SameFirst(logs, s, j);
    if entries != [] {
      if MatchLog(logs, entries[0].term, entries[0].index) {
        RestKnown(b, entries);
        SplicePrefix(b, logs, entries[1..], prev + 1);
        SpliceHolds(b, logs, entries[1..], prev + 1);
        SameEntry(b, logs, entries[0], j);
        FirstHeld(logs, s, entries, prev);
      } else {
        RestHeld(s, logs[..j], entries, prev);
      }
    }
  }

  lemma FirstHeld(logs: Log, s: Log, entries: seq<Entry>, prev: int)
    requires FirstIndex(s) == FirstIndex(logs) && entries != []
    requires var j := prev + 1 - FirstIndex(logs);
             0 <= j < |logs| && j < |s| && s[..j + 1] == logs[..j + 1] && logs[j] == entries[0]
    requires forall k :: 0 <= k < |entries[1..]| ==> HasEntry(s, prev + 2 + k, entries[1..][k])
    ensures forall k :: 0 <= k < |entries| ==> HasEntry(s, prev + 1 + k, entries[k])
  {
    var j := prev + 1 - FirstIndex(logs);
    assert s[j] == s[..j + 1][j] == logs[..j + 1][j];
    forall k | 0 < k < |entries|
      ensures HasEntry(s, prev + 1 + k, entries[k])
    {
      assert HasEntry(s, prev + 2 + (k - 1), entries[1..][k - 1]);
    }
  }

  lemma RestHeld(s: Log, before: seq<Entry>, entries: seq<Entry>, prev: int)
    requires s == before + entries && |before| == prev + 1 - FirstIndex(s)
    ensures forall k :: 0 <= k < |entries| ==> HasEntry(s, prev + 1 + k, entries[k])
  {
  }

  lemma RestKnown(b: Book, entries: seq<Entry>)
    requires AllKnown(b, entries) && entries != []
    ensures AllKnown(b, entries[1..]) && Known(b, entries[0])
  {
  }

  lemma SameFirst(logs: Log, s: Log, j: int)
    requires 0 < j <= |logs| && j <= |s| && s[..j] == logs[..j]
    ensures FirstIndex(s) == FirstIndex(logs)
  {
    assert s[0] == s[..j][0] == logs[..j][0];
  }

  lemma SameEntry(b: Book, logs: Log, e: Entry, j: nat)
    requires 0 < j < |logs| && LogKnown(b, logs) && Known(b, e) && logs[j].index == e.index && logs[j].term == e.term
    ensures logs[j] == e
  {
    assert Known(b, logs[1..][j - 1]);
  }

  lemma Replaced(b: Book, logs: Log, entries: seq<Entry>, j: nat)
    requires 0 < j <= |logs| && LogKnown(b, logs) && AllKnown(b, entries)
    ensures LogKnown(b, logs[..j] + entries)
  {
    assert (logs[..j] + entries)[1..] == logs[1..][..j - 1] + entries;
  }

  lemma TailKnown(b: Book, logs: Log, j: nat, e: Entry)
    requires 0 < j <= |logs| && LogKnown(b, logs)
    ensures AllKnown(b, logs[j..]) && LogKnown(b, [e] + logs[j..])
  {
    assert logs[j..] == logs[1..][j - 1..];
    assert ([e] + logs[j..])[1..] == logs[j..];
  }

  lemma InstalledKnown(b: Book, logs: Log, term: nat, k: nat)
    requires LogKnown(b, logs)
    ensures LogKnown(b, InstalledLog(logs, term, k))
  {
    hide AllKnown;
    if InLog(logs, k) {
      var j := k - FirstIndex(logs) + 1;
      assert logs[k - FirstIndex(logs)..][1..] == logs[j..];
      TailKnown(b, logs, j, Entry(k, term, Nil));
    } else {
      NothingKnown(b, Entry(k, term, Nil));
    }
  }

  lemma NothingKnown(b: Book, e: Entry)
    ensures LogKnown(b, [e])
  {
  }

  lemma TrimKnown(b: Book, logs: Log, k: nat)
    requires LogKnown(b, logs)
    ensures LogKnown(b, Trim(logs, k))
  {
    hide AllKnown;
    var j := k - FirstIndex(logs);
    if 0 < j < |logs| {
      assert logs[j..][1..] == logs[j + 1..];
      TailKnown(b, logs, j + 1, logs[j].(command := Nil));
    }
  }

  lemma PrefixKnown(b: Book, logs: Log, part: Log)
    requires LogKnown(b, logs) && part <= logs
    ensures LogKnown(b, part)
  {
    assert part[1..] == logs[1..][..|part| - 1];
  }

  lemma TakenKnown(b: Book, n: Node, a: AppendRequest)
    requires LogKnown(b, n.logs) && AllKnown(b, a.entries) && B.NodeOk(n) && B.RequestShaped(a)
    ensures LogKnown(b, HandleAppend(n, a).0.logs)
  {
    hide LogKnown, AllKnown, Splice, ScanBack;
    if a.term >= n.currentTerm && a.prevIndex >= FirstIndex(n.logs) && MatchLog(n.logs, a.prevTerm, a.prevIndex) {
      SplicePrefix(b, n.logs, a.entries, a.prevIndex);
    }
  }

  /** Every step but an append of a leader leaves only entries that were known. */
  lemma StepKnown(c: Cluster, b: Book, s: Step)
    requires Inv(c, b) && B.Inv(c) && D.Stored(c) && Enabled(c, s) && s.p < |c.nodes| && !s.Propose?
    ensures LogKnown(b, Do(c, s).nodes[s.p].logs)
  {
    hide LogKnown, AllKnown, B.Inv, D.Stored, B.NodeOk, B.RequestShaped, HandleAppend, Trim, InstalledLog, NextAfter, UpToDate;
    var n := c.nodes[s.p];
    assert LogKnown(b, n.logs);
    match s {
      case OnAskAppend(p, a) =>
        B.GetNode(c, p);
        B.GetMsg(c, AskAppend(p, a));
        B.RequestIs(c, a);
        TakenKnown(b, n, a);
      case Install(p, msg) => InstalledKnown(b, n.logs, msg.term, msg.index);
      case TakeSnapshot(p, index) => TrimKnown(b, n.logs, index);
      case CrashRestart(p) =>
        StoredOf(c, p);
        PrefixKnown(b, n.logs, n.stable.logs);
      case _ => LogStays(c, s);
    }
  }

  lemma StoredOf(c: Cluster, p: nat)
    requires D.Stored(c) && p < |c.nodes|
    ensures c.nodes[p].stable.logs <= c.nodes[p].logs
  {
  }

  lemma LogStays(c: Cluster, s: Step)
    requires Enabled(c, s) && s.p < |c.nodes|
    requires !s.Propose? && !s.OnAskAppend? && !s.Install? && !s.TakeSnapshot? && !s.CrashRestart?
    ensures Do(c, s).nodes[s.p].logs == c.nodes[s.p].logs
  {
    hide NextAfter, UpToDate;
  }

  // ---------- Every step ----------

  lemma AppendBook(c: Cluster, b: Book, p: nat, cmd: Command) returns (b': Book)
    requires Inv(c, b) && E.Inv(c) && B.Inv(c) && p < |c.nodes| && c.nodes[p].role == Leader
    requires B.Onward(c.nodes[p], Do(c, Propose(p, cmd)).nodes[p])
    ensures Inv(Do(c, Propose(p, cmd)), b') && Grows(b, b')
  {
    hide E.Inv, B.Inv, B.Elected, B.Onward, AllKnown;
    var n, c' := c.nodes[p], Do(c, Propose(p, cmd));
    E.GetNode(c, p);
    B.GetNode(c, p);
    B.LeaderElected(c, p);
    var e := Entry(LastIndex(n) + 1, n.currentTerm, cmd);
    FreshId(c, b, p);
    b' := b[Id(e.index, e.term) := cmd];
    KnownGrows(b, b', n.logs[1..]);
    assert c'.nodes[p].logs == n.logs + [e];
    assert (n.logs + [e])[1..] == n.logs[1..] + [e];
    assert AllKnown(b', n.logs[1..] + [e]) by { OneMore(b', n.logs[1..], e); }
    B.ElectedOn(c, c', p, e.term, p);
    assert Reaches(c', Id(e.index, e.term), p);
    Moved(c, c', b, b', p);
  }

  lemma OneMore(b: Book, entries: seq<Entry>, e: Entry)
    requires AllKnown(b, entries) && Known(b, e)
    ensures AllKnown(b, entries + [e])
  {
  }

  /** A leader's next entry has an index and term that nobody has used. */
  lemma FreshId(c: Cluster, b: Book, p: nat)
    requires Inv(c, b) && E.Inv(c) && p < |c.nodes| && c.nodes[p].role == Leader
    ensures Id(LastIndex(c.nodes[p]) + 1, c.nodes[p].currentTerm) !in b
  {
    hide E.Inv, B.Elected;
    var k := Id(LastIndex(c.nodes[p]) + 1, c.nodes[p].currentTerm);
    if k in b {
      assert IdOk(c, k);
      var l: nat :| Reaches(c, k, l);
      B.SentByLeader(c, p, k.term, l);
    }
  }

  lemma SentKnown(c: Cluster, b: Book, s: Step)
    requires Inv(c, b) && Enabled(c, s) && s.p < |c.nodes|
    ensures forall to, a :: AskAppend(to, a) in Do(c, s).net && AskAppend(to, a) !in c.net ==> AllKnown(b, a.entries)
  {
    hide LogKnown, AllKnown, HandleAppend, HandleVoteRequest, HandleSnap, StartElection;
    var n := c.nodes[s.p];
    if s.Replicate? && n.role == Leader && s.peer < |n.nextIndex| {
      var k := n.nextIndex[s.peer] - FirstIndex(n.logs);
      if 0 < k <= |n.logs| {
        TailKnown(b, n.logs, k, Placeholder);
      } else {
        NoneKnown(b);
      }
    }
  }

  lemma NoneKnown(b: Book)
    ensures AllKnown(b, [])
  {
  }

  lemma StepBook(c: Cluster, b: Book, s: Step) returns (b': Book)
    requires Inv(c, b) && E.Inv(c) && B.Inv(c) && D.Stored(c) && Enabled(c, s) && s.p < |c.nodes|
    ensures Inv(Do(c, s), b') && Grows(b, b')
  {
    hide Inv, E.Inv, B.Inv, D.Stored, B.Onward, Do, LogKnown, AllKnown, IdOk, Enabled;
    B.StepOk(c, s);
    DoGrows(c, s);
    if s.Propose? && c.nodes[s.p].role == Leader {
      b' := AppendBook(c, b, s.p, s.cmd);
    } else {
      b' := b;
      NotALeader(c, b, s);
      SentKnown(c, b, s);
      Moved(c, Do(c, s), b, b, s.p);
    }
  }

  lemma NotALeader(c: Cluster, b: Book, s: Step)
    requires Inv(c, b) && B.Inv(c) && D.Stored(c) && Enabled(c, s) && s.p < |c.nodes|
    requires !(s.Propose? && c.nodes[s.p].role == Leader)
    ensures LogKnown(b, Do(c, s).nodes[s.p].logs)
  {
    hide LogKnown, B.Inv, D.Stored;
    if !s.Propose? {
      StepKnown(c, b, s);
    }
  }

  // ---------- Runs ----------

  lemma NextBook(n: nat, steps: seq<Step>, b: Book) returns (b': Book)
    requires |steps| > 0 && IsRun(Init(n), steps) && Inv(Exec(Init(n), steps[..|steps| - 1]), b)
    ensures Inv(Exec(Init(n), steps), b') && Grows(b, b')
  {
    hide Do, Enabled, Inv, E.Inv, B.Inv, D.Stored, Grows;
    var init := steps[..|steps| - 1];
    E.RunOk(n, init);
    B.RunOk(n, init);
    D.StoredIsPrefix(n, init);
    E.EnabledServer(Exec(Init(n), init), Last(steps));
    b' := StepBook(Exec(Init(n), init), b, Last(steps));
  }

  lemma InitBook(n: nat)
    ensures Inv(Init(n), map[])
  {
  }

  lemma {:induction false} OneBook(n: nat, steps: seq<Step>) returns (b: Book)
    requires IsRun(Init(n), steps)
    ensures Inv(Exec(Init(n), steps), b) && |Exec(Init(n), steps).nodes| == n
    decreases |steps|
  {
    hide Do, Enabled, Inv, Grows;
    if steps == [] {
      b := map[];
      InitBook(n);
    } else {
      var before := OneBook(n, steps[..|steps| - 1]);
      b := NextBook(n, steps, before);
    }
  }

  /** Two moments of one run. */
  lemma {:induction false} RunBook(n: nat, steps: seq<Step>, more: seq<Step>) returns (b: Book, b': Book)
    requires IsRun(Init(n), steps + more)
    ensures Inv(Exec(Init(n), steps), b) && Inv(Exec(Init(n), steps + more), b') && Grows(b, b')
    ensures |Exec(Init(n), steps).nodes| == |Exec(Init(n), steps + more).nodes| == n
    ensures IsRun(Init(n), steps)
    decreases |more|
  {
    hide Do, Enabled, Inv;
    if more == [] {
      assert steps + more == steps;
      b := OneBook(n, steps);
      b' := b;
    } else {
      var all, init := steps + more, more[..|more| - 1];
      assert all[..|all| - 1] == steps + init;
      var mid;
      b, mid := RunBook(n, steps, init);
      b' := NextBook(n, all, mid);
    }
  }

  lemma GetLog(c: Cluster, b: Book, p: nat)
    requires Inv(c, b) && p < |c.nodes|
    ensures LogKnown(b, c.nodes[p].logs)
  {
  }

  lemma GetEntries(c: Cluster, b: Book, to: nat, a: AppendRequest)
    requires Inv(c, b) && AskAppend(to, a) in c.net
    ensures AllKnown(b, a.entries)
  {
  }

  // ---------- The theorems ----------

  /**
   * In every run, with any crash and whatever is compacted or installed: if two logs, of any two
   * servers at any two moments, have the same term at an index past both placeholders, they have
   * the same entry there.
   */
  lemma OneEntry(n: nat, steps: seq<Step>, more: seq<Step>, p: nat, q: nat, i: nat)
    requires p < n && q < n && IsRun(Init(n), steps + more)
    requires var a, b := Exec(Init(n), steps).nodes[p].logs, Exec(Init(n), steps + more).nodes[q].logs;
             FirstIndex(a) < i && FirstIndex(b) < i && InLog(a, i) && InLog(b, i) && TermAt(a, i) == TermAt(b, i)
    ensures var a, b := Exec(Init(n), steps).nodes[p].logs, Exec(Init(n), steps + more).nodes[q].logs;
            a[i - FirstIndex(a)] == b[i - FirstIndex(b)]
  {
    hide Exec, IsRun, Inv, LogKnown, B.Inv;
    var book, book' := RunBook(n, steps, more);
    var c, c' := Exec(Init(n), steps), Exec(Init(n), steps + more);
    B.RunOk(n, steps);
    B.RunOk(n, steps + more);
    B.GetNode(c, p);
    B.GetNode(c', q);
    GetLog(c, book, p);
    GetLog(c', book', q);
    var a, b := c.nodes[p].logs, c'.nodes[q].logs;
    KnownAt(book, a, i - FirstIndex(a));
    SameEntry(book', b, a[i - FirstIndex(a)], i - FirstIndex(b));
  }

  lemma KnownAt(b: Book, logs: Log, j: nat)
    requires 0 < j < |logs| && LogKnown(b, logs)
    ensures Known(b, logs[j])
  {
    assert Known(b, logs[1..][j - 1]);
  }

  /**
   * In every run a follower that answers a request with success has every entry of it, although
   * the splice compares only terms, and the probed term at the probed index.
   */
  lemma FollowerHolds(n: nat, steps: seq<Step>, p: nat, a: AppendRequest)
    requires p < n && IsRun(Init(n), steps) && AskAppend(p, a) in Exec(Init(n), steps).net
    requires HandleAppend(Exec(Init(n), steps).nodes[p], a).1.success
    ensures HoldsRequest(HandleAppend(Exec(Init(n), steps).nodes[p], a).0.logs, a)
  {
    hide Exec, IsRun, Inv, LogKnown, AllKnown, B.Inv, HandleAppend, B.RequestShaped, B.NodeOk;
    var c := Exec(Init(n), steps);
    var book := OneBook(n, steps);
    B.RunOk(n, steps);
    B.GetNode(c, p);
    B.GetMsg(c, AskAppend(p, a));
    B.RequestIs(c, a);
    GetLog(c, book, p);
    GetEntries(c, book, p, a);
    SuccessHolds(book, c.nodes[p], a);
  }

  /** The log has the probed term at the probed index and every entry of the request after it. */
  predicate HoldsRequest(logs: Log, a: AppendRequest) {
    && MatchLog(logs, a.prevTerm, a.prevIndex)
    && forall k :: 0 <= k < |a.entries| ==> HasEntry(logs, a.prevIndex + 1 + k, a.entries[k])
  }

  lemma SuccessHolds(b: Book, f: Node, a: AppendRequest)
    requires LogKnown(b, f.logs) && AllKnown(b, a.entries) && B.NodeOk(f) && B.RequestShaped(a) && HandleAppend(f, a).1.success
    ensures HoldsRequest(HandleAppend(f, a).0.logs, a)
  {
    hide LogKnown, AllKnown, Splice, ScanBack;
    assert a.prevIndex >= FirstIndex(f.logs) && MatchLog(f.logs, a.prevTerm, a.prevIndex);
    SplicePrefix(b, f.logs, a.entries, a.prevIndex);
    SpliceHolds(b, f.logs, a.entries, a.prevIndex);
    var s, j := Splice(f.logs, a.entries), a.prevIndex - FirstIndex(f.logs);
    assert s[j] == s[..j + 1][j] == f.logs[..j + 1][j];
  }
}
