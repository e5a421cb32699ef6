/**
 * Log replication on full logs: the protocol the handlers follow once compaction is undone.
 *
 * Each server keeps its whole log, including the part a compacted log has dropped, so that
 * installing a snapshot is an edit of that log: the covered prefix is overwritten and the
 * tail is kept without comparing terms.  The first `good` entries are the ones known to
 * come from leaders' logs in order; entries beyond are such a kept tail.
 *
 * The state also records what has been sent and done: the log of each term's leader, the
 * state a candidate asked for votes with, votes, append acknowledgements and commits.  A crash
 * may cost a leader the entries it had not stored; the acknowledgements it gave for them are
 * then `forgot`ten and no longer stand.
 */
module Replication {
  import opened Types

  /** A leader of `term` moved its commit index to `index`. */
  datatype Event = Event(term: nat, index: nat)

  /** `event` is the commit that justifies this server's own commit index. */
  datatype Server = Server(
    term: nat,
    role: Role,
    log: seq<Entry>,
    good: nat,
    commit: nat,
    event: Event
  )

  datatype Ack = Ack(who: nat, term: nat, index: nat)
  datatype Ballot = Ballot(term: nat, cand: nat)

  /** An append request; `log` is the sender's whole log when it was sent. */
  datatype AppendMsg = AppendMsg(term: nat, log: seq<Entry>, commit: nat, event: Event)

  /** A snapshot; `log` is the prefix it covers. */
  datatype SnapMsg = SnapMsg(term: nat, log: seq<Entry>, event: Event)

  datatype State = State(
    servers: seq<Server>,
    llog: map<nat, seq<Entry>>,
    lead: map<nat, nat>,
    reqs: map<Ballot, Server>,
    votes: set<Vote>,
    acks: set<Ack>,
    forgot: set<Ack>,
    commits: set<Event>,
    appends: set<AppendMsg>,
    snaps: set<SnapMsg>
  )

  // ---------- Vocabulary ----------

  /** Entry p and everything before it is what the leader of that entry's term had. */
  ghost predicate Ref(st: State, log: seq<Entry>, p: nat)
    requires p < |log|
  {
    var t := log[p].term;
    t in st.llog && Agree(log, st.llog[t], p + 1)
  }

  ghost predicate WellFormed(st: State, log: seq<Entry>, n: nat) {
    n <= |log| && forall p :: 0 <= p < n ==> Ref(st, log, p)
  }

  /** Entry p lies in a kept tail: its leader's log differs from this one before the tail. */
  ghost predicate Junk(st: State, log: seq<Entry>, good: nat, p: nat)
    requires p < |log|
  {
    var t := log[p].term;
    t in st.llog && p < |st.llog[t]| && st.llog[t][p] == log[p] && good <= p && !Agree(st.llog[t], log, good)
  }

  ghost predicate HasEvent(st: State, e: Event) {
    e in st.commits && e.term in st.llog && e.index < |st.llog[e.term]|
  }

  /** The first k+1 entries of the log are committed, by an event no later than term u. */
  ghost predicate Justified(st: State, u: nat, e: Event, k: nat, log: seq<Entry>) {
    HasEvent(st, e) && e.term <= u && k <= e.index && Agree(log, st.llog[e.term], k + 1)
  }

  ghost predicate ServerOk(st: State, s: Server) {
    && 1 <= s.good <= |s.log|
    && s.commit < s.good
    && (s.good < |s.log| ==> s.good == s.commit + 1)
    && WellFormed(st, s.log, s.good)
    && (forall p :: s.good <= p < |s.log| ==> Junk(st, s.log, s.good, p))
    && (forall p :: 0 <= p < |s.log| ==> s.log[p].term <= s.term && s.log[p].index == p)
    && Justified(st, s.term, s.event, s.commit, s.log)
  }

  predicate Stands(st: State, a: Ack) {
    a in st.acks && a !in st.forgot
  }

  function AckSet(st: State, t: nat, i: nat): set<nat> {
    set v: nat | v < |st.servers| && Stands(st, Ack(v, t, i))
  }

  function VoteSet(st: State, t: nat, c: nat): set<nat> {
    set v: nat | v < |st.servers| && Vote(v, t, c) in st.votes
  }

  function AtTerm(st: State, t: nat): set<nat> {
    set v: nat | v < |st.servers| && st.servers[v].term >= t
  }

  /** Servers whose acknowledgement of entry i of term t does not stand and never will. */
  function BlockSet(st: State, t: nat, i: nat): set<nat> {
    set v: nat | v < |st.servers| && st.servers[v].term > t && !Stands(st, Ack(v, t, i))
  }

  /** Entry i of term t's leader can no longer gather a majority. */
  ghost predicate Blocked(st: State, t: nat, i: nat) {
    Majority(BlockSet(st, t, i), |st.servers|)
  }

  ghost predicate OwnEntry(st: State, t: nat, i: nat) {
    t in st.llog && i < |st.llog[t]| && st.llog[t][i].term == t
  }

  /** The log still holds what was acknowledged, and its last term is no older. */
  ghost predicate Holds(st: State, log: seq<Entry>, a: Ack)
    requires a.term in st.llog && |log| > 0
  {
    Agree(log, st.llog[a.term], a.index + 1) && Last(log).term >= a.term
  }

  ghost predicate Beats(log: seq<Entry>, a: Ack)
    requires |log| > 0
  {
    Last(log).term > a.term || (Last(log).term == a.term && |log| > a.index)
  }

  /** Some commit of an earlier term is missing from the log. */
  ghost predicate Misses(st: State, log: seq<Entry>, t: nat) {
    exists e :: HasEvent(st, e) && e.term < t && !Agree(log, st.llog[e.term], e.index + 1)
  }

  // ---------- The invariant, one part at a time ----------

  ghost predicate InvLogs(st: State) {
    && 0 in st.llog && st.llog[0] == [Placeholder]
    && st.lead.Keys == st.llog.Keys - {0}
    && (forall t :: t in st.llog ==> |st.llog[t]| > 0 && st.llog[t][0] == Placeholder)
    && (forall t :: t in st.llog ==> WellFormed(st, st.llog[t], |st.llog[t]|))
    && (forall t, p :: t in st.llog && 0 <= p < |st.llog[t]| ==> st.llog[t][p].term <= t && st.llog[t][p].index == p)
  }

  ghost predicate InvServers(st: State) {
    forall v :: 0 <= v < |st.servers| ==> ServerOk(st, st.servers[v])
  }

  ghost predicate LeaderOk(st: State, v: nat)
    requires v < |st.servers|
  {
    var s := st.servers[v];
    s.role == Leader ==>
      && s.term in st.lead && st.lead[s.term] == v
      && s.term in st.llog && st.llog[s.term] == s.log && s.good == |s.log|
      && (forall e :: e in st.commits && e.term == s.term ==> e.index <= s.commit)
      && (forall i :: 0 <= i < |s.log| && s.log[i].term == s.term ==> Ack(v, s.term, i) in st.acks)
  }

  ghost predicate InvLeaders(st: State) {
    && (forall v :: 0 <= v < |st.servers| ==> LeaderOk(st, v))
    && (forall t :: t in st.lead ==>
          && st.lead[t] < |st.servers|
          && st.servers[st.lead[t]].term >= t
          && (st.servers[st.lead[t]].term == t ==> st.servers[st.lead[t]].role != Candidate)
          && Majority(VoteSet(st, t, st.lead[t]), |st.servers|)
          && Majority(AtTerm(st, t), |st.servers|))
  }

  ghost predicate CandidateOk(st: State, v: nat)
    requires v < |st.servers|
  {
    var s := st.servers[v];
    s.role == Candidate ==>
      && s.term > 0
      && Ballot(s.term, v) in st.reqs
      && var r := st.reqs[Ballot(s.term, v)];
         || (r.log == s.log && r.good == s.good)
         || Misses(st, r.log, s.term)
         || s.term in st.llog
  }

  ghost predicate InvCandidates(st: State) {
    && (forall v :: 0 <= v < |st.servers| ==> CandidateOk(st, v))
    && (forall b :: b in st.reqs ==>
          b.cand < |st.servers| && st.reqs[b].term < b.term <= st.servers[b.cand].term && ServerOk(st, st.reqs[b]))
  }

  ghost predicate AckOk(st: State, a: Ack) {
    && a.who < |st.servers|
    && a.term <= st.servers[a.who].term
    && OwnEntry(st, a.term, a.index)
    && |st.servers[a.who].log| > 0
    && (Holds(st, st.servers[a.who].log, a) || Blocked(st, a.term, a.index) || a in st.forgot)
  }

  ghost predicate InvAcks(st: State) {
    forall a :: a in st.acks ==> AckOk(st, a)
  }

  ghost predicate VoteOk(st: State, w: Vote) {
    && w.who < |st.servers|
    && w.term <= st.servers[w.who].term
    && Ballot(w.term, w.cand) in st.reqs
    && |st.reqs[Ballot(w.term, w.cand)].log| > 0
    && forall a :: a in st.acks && a.who == w.who && a.term < w.term ==>
         Beats(st.reqs[Ballot(w.term, w.cand)].log, a) || Blocked(st, a.term, a.index) || a in st.forgot
  }

  ghost predicate InvVotes(st: State) {
    forall w :: w in st.votes ==> VoteOk(st, w)
  }

  /** Each leader holds every older entry that may still be, or has been, committed. */
  ghost predicate Carried(st: State, u: nat, t: nat, i: nat) {
    u in st.llog && t in st.llog && (Agree(st.llog[u], st.llog[t], i + 1) || Blocked(st, t, i))
  }

  ghost predicate InvCarried(st: State) {
    forall u, t, i: nat :: u in st.llog && t < u && OwnEntry(st, t, i) ==> Carried(st, u, t, i)
  }

  /** So many servers stand by a committed entry that the others are no majority. */
  ghost predicate EventOk(st: State, e: Event) {
    OwnEntry(st, e.term, e.index) && 2 * |AckSet(st, e.term, e.index)| >= |st.servers|
  }

  ghost predicate InvEvents(st: State) {
    forall e :: e in st.commits ==> EventOk(st, e)
  }

  /** Only a leader that has crashed forgets, and it never leads that term again. */
  ghost predicate InvForgot(st: State) {
    forall a :: a in st.forgot ==>
      && a.term in st.lead && st.lead[a.term] == a.who && a.who < |st.servers|
      && (st.servers[a.who].term == a.term ==> st.servers[a.who].role != Leader)
  }

  ghost predicate AppendOk(st: State, m: AppendMsg) {
    && m.term in st.llog
    && Agree(m.log, st.llog[m.term], |m.log|)
    && (forall p :: |m.log| <= p < |st.llog[m.term]| ==> st.llog[m.term][p].term == m.term)
    && m.commit < |m.log|
    && Justified(st, m.term, m.event, m.commit, m.log)
  }

  ghost predicate SnapOk(st: State, m: SnapMsg) {
    |m.log| > 0 && Justified(st, m.term, m.event, |m.log| - 1, m.log)
  }

  ghost predicate InvMsgs(st: State) {
    && (forall m :: m in st.appends ==> AppendOk(st, m))
    && (forall m :: m in st.snaps ==> SnapOk(st, m))
  }

  ghost predicate Inv(st: State) {
    && InvLogs(st) && InvServers(st) && InvLeaders(st) && InvCandidates(st) && InvAcks(st)
    && InvVotes(st) && InvCarried(st) && InvEvents(st) && InvForgot(st) && InvMsgs(st)
  }

  // ---------- How the record grows ----------

  ghost predicate Extends(st: State, st': State, t: nat)
    requires t in st.llog && t in st'.llog
  {
    && st.llog[t] <= st'.llog[t]
    && forall p :: |st.llog[t]| <= p < |st'.llog[t]| ==> st'.llog[t][p].term == t
  }

  ghost predicate Grows(st: State, st': State) {
    && |st'.servers| == |st.servers|
    && (forall v :: 0 <= v < |st.servers| ==> st.servers[v].term <= st'.servers[v].term)
    && (forall t :: t in st.llog ==> t in st'.llog && Extends(st, st', t))
    && (forall t :: t in st.lead ==> t in st'.lead && st'.lead[t] == st.lead[t])
    && (forall b :: b in st.reqs ==> b in st'.reqs && st'.reqs[b] == st.reqs[b])
    && st.votes <= st'.votes && st.acks <= st'.acks && st.forgot <= st'.forgot && st.commits <= st'.commits
    && st.appends <= st'.appends && st.snaps <= st'.snaps
    && (forall a :: a in st'.acks && a !in st.acks ==> a.who < |st.servers| && a.term >= st.servers[a.who].term)
  }

  lemma GrowsTransitive(a: State, b: State, c: State)
    requires Grows(a, b) && Grows(b, c)
    ensures Grows(a, c)
  {
    forall t | t in a.llog
      ensures t in c.llog && Extends(a, c, t)
    {
      assert Extends(a, b, t) && Extends(b, c, t);
      forall p | |a.llog[t]| <= p < |c.llog[t]|
        ensures c.llog[t][p].term == t
      {
        if p < |b.llog[t]| {
          assert c.llog[t][p] == b.llog[t][p];
        }
      }
    }
  }

  lemma WellFormedGrows(st: State, st': State, log: seq<Entry>, n: nat)
    requires Grows(st, st') && WellFormed(st, log, n)
    ensures WellFormed(st', log, n)
  {
    forall p | 0 <= p < n
      ensures Ref(st', log, p)
    {
      assert Ref(st, log, p);
      assert Extends(st, st', log[p].term);
    }
  }

  lemma JustifiedGrows(st: State, st': State, u: nat, e: Event, k: nat, log: seq<Entry>)
    requires Grows(st, st') && Justified(st, u, e, k, log)
    ensures Justified(st', u, e, k, log)
  {
    assert Extends(st, st', e.term);
  }

  lemma ServerOkGrows(st: State, st': State, s: Server)
    requires Grows(st, st') && ServerOk(st, s)
    ensures ServerOk(st', s)
  {
    WellFormedGrows(st, st', s.log, s.good);
    JustifiedGrows(st, st', s.term, s.event, s.commit, s.log);
    forall p | s.good <= p < |s.log|
      ensures Junk(st', s.log, s.good, p)
    {
      assert Junk(st, s.log, s.good, p);
      assert Extends(st, st', s.log[p].term);
    }
  }

  lemma BlockedGrows(st: State, st': State, t: nat, i: nat)
    requires Grows(st, st') && Blocked(st, t, i)
    ensures Blocked(st', t, i)
  {
    SubsetSize(BlockSet(st, t, i), BlockSet(st', t, i));
  }

  lemma CarriedGrows(st: State, st': State, u: nat, t: nat, i: nat)
    requires Grows(st, st') && Carried(st, u, t, i)
    ensures Carried(st', u, t, i)
  {
    assert Extends(st, st', u) && Extends(st, st', t);
    if Blocked(st, t, i) {
      BlockedGrows(st, st', t, i);
    }
  }

  lemma MissesGrows(st: State, st': State, log: seq<Entry>, t: nat)
    requires Grows(st, st') && Misses(st, log, t)
    ensures Misses(st', log, t)
  {
    var e :| HasEvent(st, e) && e.term < t && !Agree(log, st.llog[e.term], e.index + 1);
    assert Extends(st, st', e.term);
    assert HasEvent(st', e) && !Agree(log, st'.llog[e.term], e.index + 1);
  }

  lemma EventOkGrows(st: State, st': State, e: Event)
    requires Grows(st, st') && EventOk(st, e) && st'.forgot == st.forgot
    ensures EventOk(st', e)
  {
    assert Extends(st, st', e.term);
    SubsetSize(AckSet(st, e.term, e.index), AckSet(st', e.term, e.index));
  }

  lemma LeadGrows(st: State, st': State, t: nat)
    requires Grows(st, st') && t in st.lead
    requires Majority(VoteSet(st, t, st.lead[t]), |st.servers|) && Majority(AtTerm(st, t), |st.servers|)
    ensures Majority(VoteSet(st', t, st.lead[t]), |st.servers|) && Majority(AtTerm(st', t), |st.servers|)
  {
    SubsetSize(VoteSet(st, t, st.lead[t]), VoteSet(st', t, st.lead[t]));
    SubsetSize(AtTerm(st, t), AtTerm(st', t));
  }

  lemma AppendOkGrows(st: State, st': State, m: AppendMsg)
    requires Grows(st, st') && AppendOk(st, m)
    ensures AppendOk(st', m)
  {
    assert Extends(st, st', m.term);
    JustifiedGrows(st, st', m.term, m.event, m.commit, m.log);
  }

  lemma SnapOkGrows(st: State, st': State, m: SnapMsg)
    requires Grows(st, st') && SnapOk(st, m)
    ensures SnapOk(st', m)
  {
    JustifiedGrows(st, st', m.term, m.event, |m.log| - 1, m.log);
  }

  /** An acknowledgement whose server kept its log stays good. */
  lemma AckOkGrows(st: State, st': State, a: Ack)
    requires Grows(st, st') && AckOk(st, a)
    requires st'.servers[a.who].log == st.servers[a.who].log
    ensures AckOk(st', a)
  {
    assert Extends(st, st', a.term);
    if Blocked(st, a.term, a.index) {
      BlockedGrows(st, st', a.term, a.index);
    }
  }

  // ---------- Consequences of the invariant ----------

  /** Terms never decrease along a well-formed log. */
  lemma TermsMonotone(st: State, log: seq<Entry>, n: nat, p: nat, q: nat)
    requires InvLogs(st) && WellFormed(st, log, n) && p <= q < n
    ensures log[p].term <= log[q].term
  {
    assert Ref(st, log, q);
    assert st.llog[log[q].term][p] == log[p];
  }

  /** In a leader's log an entry of a smaller term comes first. */
  lemma EarlierTerm(st: State, t: nat, p: nat, q: nat)
    requires InvLogs(st) && t in st.llog && p < |st.llog[t]| && q < |st.llog[t]|
    requires st.llog[t][p].term < st.llog[t][q].term
    ensures p < q
  {
    if q <= p {
      TermsMonotone(st, st.llog[t], |st.llog[t]|, q, p);
    }
  }

  /** Two well-formed logs with the same term at an index are the same up to it. */
  lemma LogMatching(st: State, a: seq<Entry>, n: nat, b: seq<Entry>, m: nat, p: nat)
    requires WellFormed(st, a, n) && WellFormed(st, b, m) && p < n && p < m && a[p].term == b[p].term
    ensures Agree(a, b, p + 1)
  {
    assert Ref(st, a, p) && Ref(st, b, p);
  }

  /** A committed entry cannot be blocked. */
  lemma CommittedNotBlocked(st: State, e: Event)
    requires EventOk(st, e)
    ensures !Blocked(st, e.term, e.index)
  {
    if Blocked(st, e.term, e.index) {
      var v := HalfMeetsMajority(AckSet(st, e.term, e.index), BlockSet(st, e.term, e.index), |st.servers|);
    }
  }

  /** Leader Completeness: a leader of a later term holds everything committed before. */
  lemma LeaderCompleteness(st: State, e: Event, u: nat)
    requires InvCarried(st) && InvEvents(st) && e in st.commits && u in st.llog && e.term <= u
    ensures OwnEntry(st, e.term, e.index) && Agree(st.llog[u], st.llog[e.term], e.index + 1)
  {
    assert EventOk(st, e);
    if e.term < u {
      CommittedNotBlocked(st, e);
      assert Carried(st, u, e.term, e.index);
    }
  }

  /** All commits lie on one line: of any two, the one with more entries extends the other. */
  lemma CommitsAgree(st: State, e: Event, f: Event, k: nat)
    requires InvCarried(st) && InvEvents(st) && e in st.commits && f in st.commits && k <= e.index && k <= f.index
    ensures e.term in st.llog && f.term in st.llog && Agree(st.llog[e.term], st.llog[f.term], k + 1)
  {
    assert EventOk(st, e) && EventOk(st, f);
    if e.term <= f.term {
      LeaderCompleteness(st, e, f.term);
    } else {
      LeaderCompleteness(st, f, e.term);
    }
  }
}
