/**
 * The compacted log (lab2/lab2B/Entry.go): a placeholder carrying the snapshot's index and
 * term, followed by the entries after it.  Also the scans and the splice that the handlers
 * run on it, as functions.
 */
module LogStore {
  import opened Types

  type Log = s: seq<Entry> | |s| > 0 witness [Placeholder]

  function FirstIndex(logs: Log): nat {
    logs[0].index
  }

  function LastLog(logs: Log): Entry {
    Last(logs)
  }

  /** Position i of the log holds the entry with index FirstIndex + i. */
  predicate Contiguous(logs: seq<Entry>) {
    forall j :: 0 <= j < |logs| ==> logs[j].index == logs[0].index + j
  }

  predicate InLog(logs: Log, index: int) {
    FirstIndex(logs) <= index < FirstIndex(logs) + |logs|
  }

  /** The term stored for an index; the source may only ask inside the log. */
  function TermAt(logs: Log, index: int): nat {
    if InLog(logs, index) then logs[index - FirstIndex(logs)].term else 0
  }

  predicate HasEntry(logs: Log, index: int, e: Entry) {
    InLog(logs, index) && logs[index - FirstIndex(logs)] == e
  }

  predicate MatchLog(logs: Log, term: nat, index: int) {
    InLog(logs, index) && TermAt(logs, index) == term
  }

  predicate IsLogUpToDate(logs: Log, term: nat, index: nat) {
    UpToDate(term, index, LastLog(logs))
  }

  function Take(logs: Log, k: int): seq<Entry> {
    if 0 <= k <= |logs| then logs[..k] else logs
  }

  function Drop(logs: Log, k: int): seq<Entry> {
    if 0 <= k <= |logs| then logs[k..] else []
  }

  /** Keep what already matches; from the first entry that is missing or differs, take the leader's. */
  function Splice(logs: Log, entries: seq<Entry>): Log {
    if entries == [] then logs
    else if MatchLog(logs, entries[0].term, entries[0].index) then Splice(logs, entries[1..])
    else Take(logs, entries[0].index - FirstIndex(logs)) + entries
  }

  /** The first index at or below `index`, going down, whose term is not `term`; FirstIndex - 1 if there is none. */
  function ScanBack(logs: Log, index: int, term: nat): (r: int)
    requires index < FirstIndex(logs) + |logs|
    requires index >= FirstIndex(logs) - 1
    ensures FirstIndex(logs) - 1 <= r <= index
    ensures forall i :: r < i <= index ==> TermAt(logs, i) == term
    ensures r >= FirstIndex(logs) ==> TermAt(logs, r) != term
    decreases index - FirstIndex(logs) + 1
  {
    if index < FirstIndex(logs) || TermAt(logs, index) != term then index else ScanBack(logs, index - 1, term)
  }

  /** The last index at or below `index` whose term is `term`; FirstIndex - 1 if there is none. */
  function FindTerm(logs: Log, index: int, term: int): (r: int)
    ensures FirstIndex(logs) - 1 <= r
    ensures r >= FirstIndex(logs) ==> r <= index && TermAt(logs, r) == term
    ensures forall i :: r < i <= index && i >= FirstIndex(logs) ==> TermAt(logs, i) != term
    decreases index
  {
    if index < FirstIndex(logs) then FirstIndex(logs) - 1
    else if TermAt(logs, index) == term then index
    else FindTerm(logs, index - 1, term)
  }

  /** The log after dropping everything before index k and blanking the entry there. */
  function Trim(logs: Log, k: nat): Log {
    if FirstIndex(logs) < k < FirstIndex(logs) + |logs|
    then
      var rest := logs[k - FirstIndex(logs)..];
      [rest[0].(command := Nil)] + rest[1..]
    else logs
  }

  /** The log after a snapshot is installed: the tail is kept without looking at its terms. */
  function InstalledLog(logs: Log, term: nat, index: nat): Log {
    if !InLog(logs, index) then [Entry(index, term, Nil)]
    else [Entry(index, term, Nil)] + logs[index - FirstIndex(logs)..][1..]
  }

  // ---------- A compacted log stands for a full one ----------

  /** What is left of a full log when everything before `first` is dropped. */
  function Compact(full: seq<Entry>, first: nat): Log
    requires first < |full|
  {
    [Entry(first, full[first].term, Nil)] + full[first + 1..]
  }

  predicate Numbered(full: seq<Entry>) {
    forall p :: 0 <= p < |full| ==> full[p].index == p
  }

  /** Compaction loses no term and no entry from the snapshot index on. */
  lemma CompactLookup(full: seq<Entry>, first: nat)
    requires first < |full| && Numbered(full)
    ensures var logs := Compact(full, first);
            && Contiguous(logs) && FirstIndex(logs) == first && |logs| == |full| - first
            && LastLog(logs).index == |full| - 1 && LastLog(logs).term == Last(full).term
            && (forall i :: first <= i < |full| ==> TermAt(logs, i) == full[i].term)
            && (forall i :: first < i < |full| ==> logs[i - first] == full[i])
  {
  }

  /** Trimming a compacted log is compacting the full log further. */
  lemma TrimCompact(full: seq<Entry>, first: nat, k: nat)
    requires first < k < |full| && Numbered(full)
    ensures Trim(Compact(full, first), k) == Compact(full, k)
  {
    var logs := Compact(full, first);
    assert FirstIndex(logs) == first && |logs| == |full| - first;
    var rest := logs[k - first..];
    assert rest == full[k..] by { hide Numbered; }
    assert rest[0] == full[k] && rest[1..] == full[k + 1..];
  }

  /** Same term at an index means same log up to it: what the consistency check relies on. */
  predicate TermsDecide(full: seq<Entry>, leader: seq<Entry>) {
    forall q :: 0 <= q < |full| && q < |leader| && full[q].term == leader[q].term ==> Agree(full, leader, q + 1)
  }

  /**
   * After the consistency check at `prev`, splicing the leader's suffix into the compacted log
   * gives the compacted form of: the full log if the leader's log is a prefix of it, otherwise
   * the leader's log.  The placeholder is never touched.
   */
  lemma {:induction false} SpliceCompact(full: seq<Entry>, first: nat, leader: seq<Entry>, j: nat)
    requires first < |full| && first < j <= |leader| && Numbered(full) && Numbered(leader)
    requires TermsDecide(full, leader) && Agree(full, leader, j)
    ensures Splice(Compact(full, first), leader[j..]) ==
            Compact(if leader <= full then full else leader, first)
    decreases |leader| - j
  {
    hide Compact, MatchLog, Numbered, TermsDecide;
    if j == |leader| {
      assert leader[j..] == [] && leader == full[..j];
    } else {
      var e, rest := leader[j], leader[j..];
      assert rest[0] == e && rest[1..] == leader[j + 1..];
      MatchCompact(full, first, leader, j);
      if j < |full| && full[j].term == e.term {
        SpliceCompact(full, first, leader, j + 1);
      } else {
        SpliceReplaces(full, first, leader, j);
      }
    }
  }

  lemma MatchCompact(full: seq<Entry>, first: nat, leader: seq<Entry>, j: nat)
    requires first < |full| && first < j < |leader| && Numbered(full) && Numbered(leader) && TermsDecide(full, leader)
    ensures FirstIndex(Compact(full, first)) == first && leader[j].index == j
    ensures MatchLog(Compact(full, first), leader[j].term, j) <==> j < |full| && full[j].term == leader[j].term
    ensures j < |full| && full[j].term == leader[j].term ==> Agree(full, leader, j + 1)
  {
    CompactLookup(full, first);
  }

  /** At the first entry that is missing or differs, the rest of the leader's log is taken over. */
  lemma SpliceReplaces(full: seq<Entry>, first: nat, leader: seq<Entry>, j: nat)
    requires first < |full| && first < j < |leader| && Agree(full, leader, j)
    requires j < |full| ==> full[j].term != leader[j].term
    ensures !(leader <= full)
    ensures Take(Compact(full, first), j - first) + leader[j..] == Compact(leader, first)
  {
    if j < |full| {
      assert leader[j] != full[j];
    }
    assert Compact(full, first)[..j - first] == Compact(leader, first)[..j - first];
    assert Compact(leader, first)[j - first..] == leader[j..];
  }

  lemma CompactAppend(full: seq<Entry>, first: nat, e: Entry)
    requires first < |full|
    ensures Compact(full + [e], first) == Compact(full, first) + [e]
  {
    assert (full + [e])[first + 1..] == full[first + 1..] + [e];
  }

  lemma CompactSuffix(full: seq<Entry>, first: nat, k: nat)
    requires first < k <= |full|
    ensures Drop(Compact(full, first), k - first) == full[k..]
  {
    assert Compact(full, first)[k - first..] == full[k..];
  }

  /** Installing a prefix over a compacted log is installing it over the full log. */
  lemma CompactInstall(full: seq<Entry>, first: nat, prefix: seq<Entry>)
    requires first < |full| && Numbered(full) && first + 1 < |prefix|
    ensures var k := |prefix| - 1;
            var full' := if |prefix| <= |full| then prefix + full[k + 1..] else prefix;
            InstalledLog(Compact(full, first), prefix[k].term, k) == Compact(full', k)
  {
    CompactLookup(full, first);
    var k := |prefix| - 1;
    var logs := Compact(full, first);
    if k < |full| {
      assert logs[k - first..][1..] == full[k + 1..];
      assert (prefix + full[k + 1..])[k + 1..] == full[k + 1..];
    } else {
      assert prefix[k + 1..] == [];
    }
  }

  // ---------- The tail a snapshot leaves ----------

  /**
   * Installing a snapshot inside the log is the same as trimming the log there exactly when the
   * log already has the snapshot's term at that index.  The guard looks only at the index.
   */
  lemma InstallIsTrim(logs: Log, term: nat, k: nat)
    requires Contiguous(logs) && FirstIndex(logs) < k && InLog(logs, k)
    ensures InstalledLog(logs, term, k) == Trim(logs, k) <==> TermAt(logs, k) == term
  {
    var rest := logs[k - FirstIndex(logs)..];
    assert InstalledLog(logs, term, k)[0].term == term;
    assert Trim(logs, k)[0].term == rest[0].term == TermAt(logs, k);
  }
}
