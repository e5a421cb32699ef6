/** The steps of the full-log protocol and the proof that each keeps the invariant. */
module ReplicationSteps {
  import opened Types
  import opened Replication

  // ---------- Steps ----------

  ghost function Put(st: State, v: nat, s: Server): State
    requires v < |st.servers|
  {
    st.(servers := st.servers[v := s])
  }

  /** Start an election: next term, vote for oneself, ask with the current log. */
  ghost function Timeout(st: State, v: nat): State
    requires v < |st.servers|
  {
    var s := st.servers[v];
    var b := Ballot(s.term + 1, v);
    Put(st, v, s.(term := s.term + 1, role := Candidate)).(
      reqs := st.reqs[b := s],
      votes := st.votes + {Vote(v, s.term + 1, v)})
  }

  /** Learn of a term, or of its leader. */
  ghost function StepDown(st: State, v: nat, t: nat): State
    requires v < |st.servers|
  {
    Put(st, v, st.servers[v].(term := t, role := Follower))
  }

  ghost function Grant(st: State, v: nat, b: Ballot): State
    requires v < |st.servers|
  {
    var s := st.servers[v];
    Put(st, v, s.(term := b.term, role := if b.term > s.term then Follower else s.role)).(
      votes := st.votes + {Vote(v, b.term, b.cand)})
  }

  ghost function Win(st: State, v: nat): State
    requires v < |st.servers|
  {
    var s := st.servers[v];
    Put(st, v, s.(role := Leader)).(
      llog := st.llog[s.term := s.log],
      lead := st.lead[s.term := v])
  }

  ghost function Client(st: State, v: nat, cmd: Command): State
    requires v < |st.servers|
  {
    var s := st.servers[v];
    var log := s.log + [Entry(|s.log|, s.term, cmd)];
    Put(st, v, s.(log := log, good := |log|)).(
      llog := st.llog[s.term := log],
      acks := st.acks + {Ack(v, s.term, |s.log|)})
  }

  ghost function SendAppend(st: State, v: nat): State
    requires v < |st.servers|
  {
    var s := st.servers[v];
    st.(appends := st.appends + {AppendMsg(s.term, s.log, s.commit, s.event)})
  }

  ghost function SendSnap(st: State, v: nat, k: nat): State
    requires v < |st.servers| && k < |st.servers[v].log|
  {
    var s := st.servers[v];
    st.(snaps := st.snaps + {SnapMsg(s.term, s.log[..k + 1], s.event)})
  }

  /** A shorter or equal log of the leader changes nothing; anything else replaces the log. */
  ghost function Accept(st: State, v: nat, m: AppendMsg): State
    requires v < |st.servers|
  {
    var s := st.servers[v];
    var log := if m.log <= s.log then s.log else m.log;
    var good := if m.log <= s.log then s.good else |m.log|;
    var s' := s.(term := m.term, role := Follower, log := log, good := good,
                 commit := if m.commit > s.commit then m.commit else s.commit,
                 event := if m.commit > s.commit then m.event else s.event);
    var own := set i: nat | i < |m.log| && m.log[i].term == m.term && good == |log| :: Ack(v, m.term, i);
    Put(st, v, s').(acks := st.acks + own)
  }

  ghost function Installed(s: Server, m: SnapMsg): Server
    requires |m.log| > 0
  {
    var k := |m.log|;
    var log := if k <= |s.log| then m.log + s.log[k..] else m.log;
    var good := if k <= s.good && m.log <= s.log then s.good else k;
    s.(log := log, good := good, commit := k - 1, event := m.event)
  }

  ghost function Install(st: State, v: nat, m: SnapMsg): State
    requires v < |st.servers| && |m.log| > 0
  {
    Put(st, v, Installed(st.servers[v], m))
  }

  ghost function Commit(st: State, v: nat, i: nat): State
    requires v < |st.servers|
  {
    var s := st.servers[v];
    var e := Event(s.term, i);
    Put(st, v, s.(commit := i, event := e)).(commits := st.commits + {e})
  }

  /** A server whose log is its term's leader's stands by every entry of that term in it, acknowledged or not. */
  ghost function Confirm(st: State, v: nat): State
    requires v < |st.servers|
  {
    var s := st.servers[v];
    st.(acks := st.acks + set i: nat | i < |s.log| && s.log[i].term == s.term :: Ack(v, s.term, i))
  }

  /** A crash falls back to commit index c and to the first k entries, forgetting its word for the rest. */
  ghost function Crash(st: State, v: nat, c: nat, k: nat): State
    requires v < |st.servers| && k <= |st.servers[v].log|
  {
    var s := st.servers[v];
    var lost := set i: nat | k <= i < |s.log| :: Ack(v, s.term, i);
    Put(st, v, s.(role := Follower, commit := c, log := s.log[..k], good := Min(s.good, k))).(forgot := st.forgot + lost)
  }

  /** One step of the protocol. */
  datatype Move =
    | TimeoutMove(v: nat)
    | StepDownMove(v: nat, t: nat)
    | GrantMove(v: nat, b: Ballot)
    | WinMove(v: nat)
    | ClientMove(v: nat, cmd: Command)
    | SendAppendMove(v: nat)
    | SendSnapMove(v: nat, k: nat)
    | AcceptMove(v: nat, append: AppendMsg)
    | InstallMove(v: nat, snap: SnapMsg)
    | CommitMove(v: nat, i: nat)
    | ConfirmMove(v: nat)
    | CrashMove(v: nat, c: nat, k: nat)

  /** Section 5.4.1: the candidate's log is at least as up to date as the voter's. */
  ghost predicate MayGrant(st: State, v: nat, b: Ballot)
    requires v < |st.servers|
  {
    && b in st.reqs && b.term >= st.servers[v].term
    && |st.reqs[b].log| > 0 && |st.servers[v].log| > 0
    && UpToDate(Last(st.reqs[b].log).term, |st.reqs[b].log| - 1, Last(st.servers[v].log))
  }

  ghost predicate MayWin(st: State, v: nat)
    requires v < |st.servers|
  {
    var s := st.servers[v];
    s.role == Candidate && s.term !in st.llog && Majority(VoteSet(st, s.term, v), |st.servers|)
  }

  /** Section 5.4.2: only an entry of the leader's own term, acknowledged by a majority. */
  ghost predicate MayCommit(st: State, v: nat, i: nat)
    requires v < |st.servers|
  {
    var s := st.servers[v];
    && s.role == Leader && s.commit < i < |s.log| && s.log[i].term == s.term
    && Majority(AckSet(st, s.term, i), |st.servers|)
  }

  ghost predicate MayConfirm(st: State, v: nat)
    requires v < |st.servers|
  {
    var s := st.servers[v];
    s.term in st.llog && |s.log| > 0 && Agree(s.log, st.llog[s.term], |s.log|) && Last(s.log).term >= s.term
  }

  /** Only a leader loses entries, of its own term; of the committed ones, enough others must hold each. */
  ghost predicate MayCrash(st: State, v: nat, c: nat, k: nat)
    requires v < |st.servers|
  {
    var s := st.servers[v];
    && c <= s.commit && c < k <= |s.log|
    && (s.good < |s.log| ==> c == s.commit)
    && (k < |s.log| ==> s.role == Leader)
    && (forall p :: k <= p < |s.log| ==> s.log[p].term == s.term)
    && (forall e :: e in st.commits && e.term == s.term && k <= e.index < |s.log| ==>
          2 * |AckSet(st, e.term, e.index) - {v}| >= |st.servers|)
  }

  ghost predicate MayMove(st: State, m: Move) {
    m.v < |st.servers| &&
    var s := st.servers[m.v];
    match m
    case TimeoutMove(_) => true
    case StepDownMove(_, t) => t >= s.term
    case GrantMove(v, b) => MayGrant(st, v, b)
    case WinMove(v) => MayWin(st, v)
    case ClientMove(_, _) => s.role == Leader
    case SendAppendMove(_) => s.role == Leader
    case SendSnapMove(_, k) => k <= s.commit && k < |s.log|
    case AcceptMove(_, m) => m in st.appends && m.term >= s.term
    case InstallMove(_, m) => m in st.snaps && m.term <= s.term && |m.log| > 0 && |m.log| - 1 > s.commit
    case CommitMove(v, i) => MayCommit(st, v, i)
    case ConfirmMove(v) => MayConfirm(st, v)
    case CrashMove(v, c, k) => MayCrash(st, v, c, k)
  }

  ghost function AfterMove(st: State, m: Move): State
    requires MayMove(st, m)
  {
    match m
    case TimeoutMove(v) => Timeout(st, v)
    case StepDownMove(v, t) => StepDown(st, v, t)
    case GrantMove(v, b) => Grant(st, v, b)
    case WinMove(v) => Win(st, v)
    case ClientMove(v, cmd) => Client(st, v, cmd)
    case SendAppendMove(v) => SendAppend(st, v)
    case SendSnapMove(v, k) => SendSnap(st, v, k)
    case AcceptMove(v, m) => Accept(st, v, m)
    case InstallMove(v, m) => Install(st, v, m)
    case CommitMove(v, i) => Commit(st, v, i)
    case ConfirmMove(v) => Confirm(st, v)
    case CrashMove(v, c, k) => Crash(st, v, c, k)
  }

  /** The moves lead from st to st', each allowed where it is made. */
  ghost predicate Path(st: State, moves: seq<Move>, st': State)
    decreases |moves|
  {
    if moves == [] then st' == st
    else MayMove(st, moves[0]) && Path(AfterMove(st, moves[0]), moves[1..], st')
  }

  lemma PathOne(st: State, m: Move)
    requires MayMove(st, m)
    ensures Path(st, [m], AfterMove(st, m))
  {
    assert [m][1..] == [];
  }

  lemma {:induction false} PathJoin(a: State, p: seq<Move>, b: State, q: seq<Move>, c: State)
    requires Path(a, p, b) && Path(b, q, c)
    ensures Path(a, p + q, c)
    decreases |p|
  {
    hide MayMove, AfterMove;
    if p == [] {
      assert p + q == q;
    } else {
      PathJoin(AfterMove(a, p[0]), p[1..], b, q, c);
      assert (p + q)[0] == p[0] && (p + q)[1..] == p[1..] + q;
    }
  }

  // ---------- One server changes ----------

  ghost predicate OnlyChanges(st: State, st': State, v: nat) {
    && Grows(st, st')
    && v < |st.servers|
    && (forall w :: 0 <= w < |st.servers| && w != v ==> st'.servers[w] == st.servers[w])
    && (forall t :: t in st.llog && st'.llog[t] != st.llog[t] ==> t in st.lead && st.lead[t] == v)
    && (forall e :: e in st'.commits && e !in st.commits ==> e.term in st.lead && st.lead[e.term] == v)
  }

  /** The changed server satisfies what the invariant asks of a server. */
  ghost predicate NewServerOk(st: State, st': State, v: nat)
    requires OnlyChanges(st, st', v)
  {
    && ServerOk(st', st'.servers[v]) && LeaderOk(st', v) && CandidateOk(st', v)
    && (st'.servers[v].role == Candidate ==>
          forall t :: t in st.lead && st.lead[t] == v ==> st'.servers[v].term != t)
  }

  ghost predicate NewLogsOk(st: State, st': State, v: nat)
    requires OnlyChanges(st, st', v)
  {
    && InvLogs(st')
    && (forall t :: t in st'.lead && t !in st.lead ==>
          && st'.lead[t] == v
          && st'.servers[v].term == t && st'.servers[v].role != Candidate
          && Majority(VoteSet(st', t, v), |st.servers|) && Majority(AtTerm(st', t), |st.servers|))
    && (forall u, t, i: nat :: u in st'.llog && t < u && OwnEntry(st', t, i) && !(u in st.llog && OwnEntry(st, t, i))
          ==> Carried(st', u, t, i))
  }

  ghost predicate NewVotesOk(st: State, st': State, v: nat)
    requires OnlyChanges(st, st', v)
  {
    && (forall b :: b in st'.reqs && b !in st.reqs ==>
          b.cand == v && st'.reqs[b].term < b.term <= st'.servers[v].term && ServerOk(st', st'.reqs[b]))
    && (forall w :: w in st'.votes && w !in st.votes ==> VoteOk(st', w))
  }

  ghost predicate NewAcksOk(st: State, st': State, v: nat)
    requires OnlyChanges(st, st', v)
  {
    forall a :: a in st'.acks && (a !in st.acks || a.who == v) ==> AckOk(st', a)
  }

  ghost predicate NewHistoryOk(st: State, st': State, v: nat)
    requires OnlyChanges(st, st', v)
  {
    && (forall e :: e in st'.commits && (e !in st.commits || st'.forgot != st.forgot) ==> EventOk(st', e))
    && (forall m :: m in st'.appends && m !in st.appends ==> AppendOk(st', m))
    && (forall m :: m in st'.snaps && m !in st.snaps ==> SnapOk(st', m))
  }

  /** What the server newly forgets is its own, and it leads no term it has forgotten about. */
  ghost predicate NewForgotOk(st: State, st': State, v: nat)
    requires OnlyChanges(st, st', v)
  {
    && (forall a :: a in st'.forgot && a !in st.forgot ==>
          && a.who == v && a.term in st'.lead && st'.lead[a.term] == v && st'.servers[v].role != Leader)
    && (st'.servers[v].role == Leader ==>
          || st'.servers[v].term !in st.lead
          || (st.servers[v].role == Leader && st'.servers[v].term == st.servers[v].term))
  }

  ghost predicate NewThingsOk(st: State, st': State, v: nat)
    requires OnlyChanges(st, st', v)
  {
    && NewServerOk(st, st', v) && NewLogsOk(st, st', v) && NewVotesOk(st, st', v)
    && NewAcksOk(st, st', v) && NewForgotOk(st, st', v) && NewHistoryOk(st, st', v)
  }

  lemma OldVotes(st: State, st': State, v: nat, w: Vote)
    requires OnlyChanges(st, st', v) && InvVotes(st) && w in st.votes
    ensures VoteOk(st', w)
  {
    assert VoteOk(st, w);
    forall a | a in st'.acks && a.who == w.who && a.term < w.term
      ensures Beats(st'.reqs[Ballot(w.term, w.cand)].log, a) || Blocked(st', a.term, a.index) || a in st'.forgot
    {
      assert a in st.acks;
      if Blocked(st, a.term, a.index) {
        BlockedGrows(st, st', a.term, a.index);
      }
    }
  }

  lemma OldCandidates(st: State, st': State, v: nat, w: nat)
    requires OnlyChanges(st, st', v) && InvCandidates(st) && w < |st.servers| && w != v
    ensures CandidateOk(st', w)
  {
    assert CandidateOk(st, w);
    var s := st.servers[w];
    if s.role == Candidate && Misses(st, st.reqs[Ballot(s.term, w)].log, s.term) {
      MissesGrows(st, st', st.reqs[Ballot(s.term, w)].log, s.term);
    }
  }

  lemma Rebuild(st: State, st': State, v: nat)
    requires Inv(st) && OnlyChanges(st, st', v) && NewThingsOk(st, st', v)
    ensures Inv(st')
  {
    hide InvLogs, InvServers, InvLeaders, InvCandidates, InvAcks, InvVotes, InvCarried, InvEvents, InvForgot, InvMsgs,
         NewServerOk, NewLogsOk, NewVotesOk, NewAcksOk, NewForgotOk, NewHistoryOk, OnlyChanges;
    RebuildLogs(st, st', v);
    RebuildServers(st, st', v);
    RebuildLeads(st, st', v);
    RebuildBallots(st, st', v);
    RebuildAcks(st, st', v);
    RebuildForgot(st, st', v);
    RebuildHistory(st, st', v);
  }

  lemma RebuildLogs(st: State, st': State, v: nat)
    requires OnlyChanges(st, st', v) && NewLogsOk(st, st', v)
    ensures InvLogs(st')
  {
  }

  lemma RebuildServers(st: State, st': State, v: nat)
    requires InvServers(st) && InvLeaders(st) && InvCandidates(st) && OnlyChanges(st, st', v) && NewServerOk(st, st', v)
    ensures InvServers(st')
    ensures forall w :: 0 <= w < |st'.servers| ==> LeaderOk(st', w) && CandidateOk(st', w)
  {
    hide ServerOk, CandidateOk;
    forall w | 0 <= w < |st.servers|
      ensures ServerOk(st', st'.servers[w]) && LeaderOk(st', w) && CandidateOk(st', w)
    {
      if w != v {
        assert ServerOk(st, st.servers[w]) && LeaderOk(st, w);
        ServerOkGrows(st, st', st.servers[w]);
        OldCandidates(st, st', v, w);
      }
    }
  }

  lemma RebuildLeads(st: State, st': State, v: nat)
    requires InvLeaders(st) && OnlyChanges(st, st', v) && NewLogsOk(st, st', v) && NewServerOk(st, st', v)
    requires forall w :: 0 <= w < |st'.servers| ==> LeaderOk(st', w)
    ensures InvLeaders(st')
  {
    hide LeaderOk, ServerOk, CandidateOk, InvLogs, VoteSet, AtTerm, Extends, Carried;
    forall t | t in st.lead
      ensures Majority(VoteSet(st', t, st.lead[t]), |st.servers|) && Majority(AtTerm(st', t), |st.servers|)
    {
      LeadGrows(st, st', t);
    }
  }

  lemma RebuildBallots(st: State, st': State, v: nat)
    requires InvCandidates(st) && InvVotes(st) && OnlyChanges(st, st', v) && NewVotesOk(st, st', v)
    requires forall w :: 0 <= w < |st'.servers| ==> CandidateOk(st', w)
    ensures InvCandidates(st') && InvVotes(st')
  {
    hide ServerOk, CandidateOk, VoteOk, Extends;
    forall b | b in st.reqs
      ensures ServerOk(st', st.reqs[b])
    {
      ServerOkGrows(st, st', st.reqs[b]);
    }
    forall w | w in st'.votes
      ensures VoteOk(st', w)
    {
      if w in st.votes {
        OldVotes(st, st', v, w);
      }
    }
  }

  lemma RebuildAcks(st: State, st': State, v: nat)
    requires InvAcks(st) && OnlyChanges(st, st', v) && NewAcksOk(st, st', v)
    ensures InvAcks(st')
  {
    hide Extends;
    forall a | a in st'.acks
      ensures AckOk(st', a)
    {
      if a in st.acks && a.who != v {
        assert AckOk(st, a);
        AckOkGrows(st, st', a);
      }
    }
  }

  lemma RebuildForgot(st: State, st': State, v: nat)
    requires InvForgot(st) && OnlyChanges(st, st', v) && NewForgotOk(st, st', v)
    ensures InvForgot(st')
  {
    hide Extends;
  }

  lemma RebuildHistory(st: State, st': State, v: nat)
    requires Inv(st) && OnlyChanges(st, st', v) && NewThingsOk(st, st', v)
    ensures InvCarried(st') && InvEvents(st') && InvMsgs(st')
  {
    forall u, t, i: nat | u in st'.llog && t < u && OwnEntry(st', t, i)
      ensures Carried(st', u, t, i)
    {
      if u in st.llog && OwnEntry(st, t, i) {
        assert Carried(st, u, t, i);
        CarriedGrows(st, st', u, t, i);
      }
    }
    forall e | e in st'.commits
      ensures EventOk(st', e)
    {
      if e in st.commits && st'.forgot == st.forgot {
        assert EventOk(st, e);
        EventOkGrows(st, st', e);
      }
    }
    forall m | m in st'.appends
      ensures AppendOk(st', m)
    {
      if m in st.appends {
        AppendOkGrows(st, st', m);
      }
    }
    forall m | m in st'.snaps
      ensures SnapOk(st', m)
    {
      if m in st.snaps {
        SnapOkGrows(st, st', m);
      }
    }
  }

  /** Acknowledgements of a server that kept its log. */
  lemma KeptAcks(st: State, st': State, v: nat)
    requires InvAcks(st) && OnlyChanges(st, st', v) && st'.servers[v].log == st.servers[v].log && st'.acks == st.acks
    ensures NewAcksOk(st, st', v)
  {
    forall a | a in st'.acks
      ensures AckOk(st', a)
    {
      assert AckOk(st, a);
      AckOkGrows(st, st', a);
    }
  }

  lemma KeptLogs(st: State, st': State, v: nat)
    requires InvLogs(st) && OnlyChanges(st, st', v) && st'.llog == st.llog && st'.lead == st.lead
    ensures NewLogsOk(st, st', v)
  {
    forall t | t in st.llog
      ensures WellFormed(st', st'.llog[t], |st'.llog[t]|)
    {
      WellFormedGrows(st, st', st.llog[t], |st.llog[t]|);
    }
  }

  /** A candidate that stays one keeps its standing. */
  lemma KeptCandidate(st: State, st': State, v: nat)
    requires OnlyChanges(st, st', v) && CandidateOk(st, v)
    requires st'.servers[v].role == Candidate ==>
               var s, s' := st.servers[v], st'.servers[v];
               s.role == Candidate && s'.term == s.term && s'.log == s.log && s'.good == s.good
    ensures CandidateOk(st', v)
  {
    var s := st.servers[v];
    if st'.servers[v].role == Candidate {
      var r := st.reqs[Ballot(s.term, v)];
      if Misses(st, r.log, s.term) {
        MissesGrows(st, st', r.log, s.term);
      }
    }
  }

  lemma TimeoutKeeps(st: State, v: nat)
    requires Inv(st) && v < |st.servers|
    ensures Inv(Timeout(st, v)) && Grows(st, Timeout(st, v))
  {
    hide InvLogs, InvServers, InvLeaders, InvAcks, InvVotes, InvCarried, InvEvents, InvForgot, InvMsgs,
         ServerOk, NewServerOk, NewLogsOk, NewVotesOk, NewAcksOk, NewHistoryOk;
    var st' := Timeout(st, v);
    Member(st, v);
    assert Grows(st, st') && OnlyChanges(st, st', v);
    KeptLogs(st, st', v);
    KeptAcks(st, st', v);
    KeptHistory(st, st', v);
    TimeoutServer(st, v);
    Rebuild(st, st', v);
  }

  lemma TimeoutServer(st: State, v: nat)
    requires InvLeaders(st) && InvCandidates(st) && InvAcks(st) && v < |st.servers| && ServerOk(st, st.servers[v])
    requires OnlyChanges(st, Timeout(st, v), v)
    ensures NewServerOk(st, Timeout(st, v), v) && NewVotesOk(st, Timeout(st, v), v)
  {
    hide ServerOk, VoteOk, InvAcks, LeaderOk, Extends;
    var st', s := Timeout(st, v), st.servers[v];
    ServerOkGrows(st, st', s);
    OneMoreTerm(st', s, st'.servers[v]);
    TimeoutVote(st, v);
    NotLeading(st', v);
  }

  lemma NotLeading(st: State, v: nat)
    requires v < |st.servers| && st.servers[v].role != Leader
    ensures LeaderOk(st, v)
  {
  }

  lemma OneMoreTerm(st: State, s: Server, s': Server)
    requires ServerOk(st, s) && s'.term >= s.term && s' == s.(term := s'.term, role := s'.role)
    ensures ServerOk(st, s') && |s.log| > 0
  {
  }

  lemma KeptHistory(st: State, st': State, v: nat)
    requires OnlyChanges(st, st', v) && st'.commits == st.commits && st'.appends == st.appends && st'.snaps == st.snaps
    requires st'.forgot == st.forgot
    ensures NewHistoryOk(st, st', v)
  {
  }

  lemma TimeoutVote(st: State, v: nat)
    requires InvAcks(st) && v < |st.servers| && |st.servers[v].log| > 0 && OnlyChanges(st, Timeout(st, v), v)
    ensures VoteOk(Timeout(st, v), Vote(v, st.servers[v].term + 1, v))
  {
    var st', s := Timeout(st, v), st.servers[v];
    forall a | a in st'.acks && a.who == v && a.term < s.term + 1
      ensures Beats(s.log, a) || Blocked(st', a.term, a.index) || a in st'.forgot
    {
      assert AckOk(st, a);
      AckOkGrows(st, st', a);
    }
  }

  lemma StepDownKeeps(st: State, v: nat, t: nat)
    requires Inv(st) && v < |st.servers| && t >= st.servers[v].term
    ensures Inv(StepDown(st, v, t)) && Grows(st, StepDown(st, v, t))
  {
    hide InvLogs, InvMsgs, InvCarried, InvEvents, InvVotes, ServerOk, NewLogsOk, NewAcksOk, NewHistoryOk;
    var st', s := StepDown(st, v, t), st.servers[v];
    assert Grows(st, st') && OnlyChanges(st, st', v);
    KeptLogs(st, st', v);
    KeptAcks(st, st', v);
    KeptHistory(st, st', v);
    assert ServerOk(st, s);
    ServerOkGrows(st, st', s);
    OneMoreTerm(st', s, st'.servers[v]);
    Rebuild(st, st', v);
  }

  lemma GrantVote(st: State, v: nat, b: Ballot)
    requires InvAcks(st) && v < |st.servers| && b in st.reqs && b.term >= st.servers[v].term
    requires |st.reqs[b].log| > 0 && |st.servers[v].log| > 0 && Last(st.servers[v].log).index == |st.servers[v].log| - 1
    requires UpToDate(Last(st.reqs[b].log).term, |st.reqs[b].log| - 1, Last(st.servers[v].log))
    requires OnlyChanges(st, Grant(st, v, b), v)
    ensures VoteOk(Grant(st, v, b), Vote(v, b.term, b.cand))
  {
    var st' := Grant(st, v, b);
    forall a | a in st'.acks && a.who == v && a.term < b.term
      ensures Beats(st'.reqs[b].log, a) || Blocked(st', a.term, a.index) || a in st'.forgot
    {
      assert AckOk(st, a);
      AckOkGrows(st, st', a);
    }
  }

  lemma GrantKeeps(st: State, v: nat, b: Ballot)
    requires Inv(st) && v < |st.servers| && MayGrant(st, v, b)
    ensures Inv(Grant(st, v, b)) && Grows(st, Grant(st, v, b))
  {
    hide InvLogs, InvServers, InvLeaders, InvCandidates, InvAcks, InvVotes, InvCarried, InvEvents, InvMsgs,
         ServerOk, NewServerOk, NewLogsOk, NewAcksOk, NewHistoryOk;
    var st', s := Grant(st, v, b), st.servers[v];
    assert Grows(st, st') && OnlyChanges(st, st', v);
    KeptLogs(st, st', v);
    KeptAcks(st, st', v);
    KeptHistory(st, st', v);
    Member(st, v);
    GrantServer(st, v, b);
    GrantVote(st, v, b);
    Rebuild(st, st', v);
  }

  lemma GrantServer(st: State, v: nat, b: Ballot)
    requires v < |st.servers| && ServerOk(st, st.servers[v]) && LeaderOk(st, v) && CandidateOk(st, v)
    requires b.term >= st.servers[v].term && OnlyChanges(st, Grant(st, v, b), v)
    requires st.servers[v].role == Candidate ==>
               forall t :: t in st.lead && st.lead[t] == v ==> st.servers[v].term != t
    ensures NewServerOk(st, Grant(st, v, b), v)
  {
    var st', s := Grant(st, v, b), st.servers[v];
    ServerOkGrows(st, st', s);
    OneMoreTerm(st', s, st'.servers[v]);
    KeptCandidate(st, st', v);
  }

  lemma Member(st: State, v: nat)
    requires Inv(st) && v < |st.servers|
    ensures ServerOk(st, st.servers[v]) && LeaderOk(st, v) && CandidateOk(st, v)
    ensures |st.servers[v].log| > 0 && Last(st.servers[v].log).index == |st.servers[v].log| - 1
    ensures st.servers[v].role == Candidate ==>
              forall t :: t in st.lead && st.lead[t] == v ==> st.servers[v].term != t
  {
  }

  // ---------- Winning an election ----------

  /** What a candidate's votes say about one older entry: it comes first, or the entry is blocked. */
  lemma VotersDecide(st: State, b: Ballot, t: nat, i: nat)
    requires InvVotes(st) && b in st.reqs && t < b.term
    requires Majority(VoteSet(st, b.term, b.cand), |st.servers|)
    requires |st.reqs[b].log| > 0
    ensures Beats(st.reqs[b].log, Ack(0, t, i)) || Blocked(st, t, i)
  {
    var q := VoteSet(st, b.term, b.cand);
    if v :| v in q && Stands(st, Ack(v, t, i)) {
      assert VoteOk(st, Vote(v, b.term, b.cand));
    } else {
      forall v | v in q
        ensures v in BlockSet(st, t, i)
      {
        assert VoteOk(st, Vote(v, b.term, b.cand));
      }
      SubsetSize(q, BlockSet(st, t, i));
    }
  }

  /** A candidate with a kept tail cannot win: the commit before the tail outranks the tail. */
  lemma WinnerHasNoTail(st: State, b: Ballot)
    requires InvVotes(st) && InvCarried(st) && InvEvents(st)
    requires b in st.reqs && ServerOk(st, st.reqs[b]) && st.reqs[b].term < b.term
    requires Majority(VoteSet(st, b.term, b.cand), |st.servers|)
    ensures st.reqs[b].good == |st.reqs[b].log|
  {
    hide InvVotes, InvCarried, WellFormed;
    var r := st.reqs[b];
    if r.good < |r.log| {
      var p := |r.log| - 1;
      var t, e := r.log[p].term, r.event;
      assert Junk(st, r.log, r.good, p);
      assert EventOk(st, e);
      VotersDecide(st, b, e.term, e.index);
      CommittedNotBlocked(st, e);
      LeaderCompleteness(st, e, t);
    }
  }

  /** A winner carries every older entry that is not blocked. */
  lemma WinnerCarries(st: State, b: Ballot, t: nat, i: nat)
    requires InvLogs(st) && InvVotes(st) && InvCarried(st)
    requires b in st.reqs && ServerOk(st, st.reqs[b]) && st.reqs[b].good == |st.reqs[b].log|
    requires Majority(VoteSet(st, b.term, b.cand), |st.servers|)
    requires OwnEntry(st, t, i) && t < b.term
    ensures Agree(st.reqs[b].log, st.llog[t], i + 1) || Blocked(st, t, i)
  {
    hide InvVotes, Justified, Junk;
    var r := st.reqs[b];
    VotersDecide(st, b, t, i);
    if !Blocked(st, t, i) {
      var last := |r.log| - 1;
      var u := r.log[last].term;
      assert Ref(st, r.log, last);
      if u > t {
        assert Carried(st, u, t, i);
        EarlierTerm(st, u, i, last);
      }
    }
  }

  /** The winner's log is still the one it asked for votes with. */
  lemma WinnerKeptLog(st: State, v: nat)
    requires Inv(st) && v < |st.servers| && st.servers[v].role == Candidate && st.servers[v].term !in st.llog
    requires Majority(VoteSet(st, st.servers[v].term, v), |st.servers|)
    ensures Ballot(st.servers[v].term, v) in st.reqs
    ensures var r := st.reqs[Ballot(st.servers[v].term, v)];
            ServerOk(st, r) && r.log == st.servers[v].log && r.good == st.servers[v].good == |r.log| && r.term < st.servers[v].term
  {
    hide InvLogs, InvMsgs, InvCarried, InvEvents, InvVotes, InvAcks, InvLeaders, InvServers, ServerOk;
    var s := st.servers[v];
    assert CandidateOk(st, v);
    var b := Ballot(s.term, v);
    var r := st.reqs[b];
    WinnerHasNoTail(st, b);
    if Misses(st, r.log, s.term) {
      var e :| HasEvent(st, e) && e.term < s.term && !Agree(r.log, st.llog[e.term], e.index + 1);
      GetEvent(st, e);
      CommittedNotBlocked(st, e);
      WinnerCarries(st, b, e.term, e.index);
    }
  }

  lemma GetEvent(st: State, e: Event)
    requires InvEvents(st) && e in st.commits
    ensures EventOk(st, e)
  {
  }

  lemma WinLogs(st: State, v: nat)
    requires Inv(st) && v < |st.servers| && st.servers[v].role == Candidate && st.servers[v].term !in st.llog
    requires Majority(VoteSet(st, st.servers[v].term, v), |st.servers|)
    requires OnlyChanges(st, Win(st, v), v)
    ensures NewLogsOk(st, Win(st, v), v)
  {
    hide InvServers, InvLeaders, InvCandidates, InvAcks, InvVotes, InvEvents, InvForgot, InvMsgs,
         InvLogs, InvCarried, ServerOk, VoteSet, AtTerm, OnlyChanges, Carried, WellFormed;
    var st', s := Win(st, v), st.servers[v];
    Member(st, v);
    WinnerKeptLog(st, v);
    BelowTerm(st, v);
    WonLogs(st, v);
    WonVotes(st, v);
    forall u, y, i: nat | u in st'.llog && y < u && OwnEntry(st', y, i) && !(u in st.llog && OwnEntry(st, y, i))
      ensures Carried(st', u, y, i)
    {
      WonCarries(st, v, u, y, i);
    }
  }

  lemma WonLogs(st: State, v: nat)
    requires InvLogs(st) && v < |st.servers| && ServerOk(st, st.servers[v]) && OnlyChanges(st, Win(st, v), v)
    requires st.servers[v].term !in st.llog && st.servers[v].good == |st.servers[v].log|
    ensures InvLogs(Win(st, v))
  {
    hide Junk, Justified;
    var st', s := Win(st, v), st.servers[v];
    assert Ref(st, s.log, 0);
    forall u | u in st'.llog
      ensures WellFormed(st', st'.llog[u], |st'.llog[u]|)
    {
      WellFormedGrows(st, st', st'.llog[u], |st'.llog[u]|);
    }
  }

  lemma WonVotes(st: State, v: nat)
    requires InvVotes(st) && v < |st.servers| && Majority(VoteSet(st, st.servers[v].term, v), |st.servers|)
    ensures var st', t := Win(st, v), st.servers[v].term;
            Majority(VoteSet(st', t, v), |st.servers|) && Majority(AtTerm(st', t), |st.servers|)
  {
    hide VoteOk;
    var st', t := Win(st, v), st.servers[v].term;
    assert VoteSet(st', t, v) == VoteSet(st, t, v);
    forall w | w in VoteSet(st, t, v)
      ensures w in AtTerm(st', t)
    {
      GetVote(st, Vote(w, t, v));
      VoterTerm(st, Vote(w, t, v));
    }
    SubsetSize(VoteSet(st, t, v), AtTerm(st', t));
  }

  lemma VoterTerm(st: State, w: Vote)
    requires VoteOk(st, w)
    ensures w.who < |st.servers| && w.term <= st.servers[w.who].term
  {
  }

  lemma WonCarries(st: State, v: nat, u: nat, t: nat, i: nat)
    requires InvLogs(st) && InvVotes(st) && InvCarried(st) && v < |st.servers| && OnlyChanges(st, Win(st, v), v)
    requires st.servers[v].term !in st.llog && Majority(VoteSet(st, st.servers[v].term, v), |st.servers|)
    requires Ballot(st.servers[v].term, v) in st.reqs
    requires var q := st.reqs[Ballot(st.servers[v].term, v)]; ServerOk(st, q) && q.log == st.servers[v].log && q.good == |q.log|
    requires forall p :: 0 <= p < |st.servers[v].log| ==> st.servers[v].log[p].term < st.servers[v].term
    requires u in Win(st, v).llog && t < u && OwnEntry(Win(st, v), t, i) && !(u in st.llog && OwnEntry(st, t, i))
    ensures Carried(Win(st, v), u, t, i)
  {
    hide InvLogs, InvVotes, InvCarried, ServerOk, VoteSet, Blocked;
    assert u == st.servers[v].term && t != u;
    WinnerCarries(st, Ballot(u, v), t, i);
    if Blocked(st, t, i) {
      BlockedGrows(st, Win(st, v), t, i);
    }
  }

  lemma GetVote(st: State, w: Vote)
    requires InvVotes(st) && w in st.votes
    ensures VoteOk(st, w)
  {
  }

  lemma WinKeeps(st: State, v: nat)
    requires Inv(st) && v < |st.servers| && MayWin(st, v)
    ensures Inv(Win(st, v)) && Grows(st, Win(st, v))
  {
    hide InvLogs, InvServers, InvLeaders, InvCandidates, InvAcks, InvVotes, InvCarried, InvEvents, InvForgot, InvMsgs,
         ServerOk, NewServerOk, NewLogsOk, NewAcksOk, NewHistoryOk, VoteSet;
    var st', s := Win(st, v), st.servers[v];
    LedTerms(st);
    Member(st, v);
    assert Grows(st, st') && OnlyChanges(st, st', v);
    WinLogs(st, v);
    KeptAcks(st, st', v);
    KeptHistory(st, st', v);
    WinnerKeptLog(st, v);
    ServerOkGrows(st, st', s);
    BelowTerm(st, v);
    WinnerLeads(st, v);
    WonServer(st, v);
    Rebuild(st, st', v);
  }

  /** The log a candidate asked with holds only entries of earlier terms. */
  lemma BelowTerm(st: State, v: nat)
    requires v < |st.servers| && Ballot(st.servers[v].term, v) in st.reqs
    requires var r := st.reqs[Ballot(st.servers[v].term, v)];
             ServerOk(st, r) && r.log == st.servers[v].log && r.term < st.servers[v].term
    ensures forall p :: 0 <= p < |st.servers[v].log| ==> st.servers[v].log[p].term < st.servers[v].term
  {
    hide WellFormed, Junk, Justified;
  }

  lemma WonServer(st: State, v: nat)
    requires v < |st.servers| && OnlyChanges(st, Win(st, v), v) && ServerOk(Win(st, v), st.servers[v]) && LeaderOk(Win(st, v), v)
    ensures NewServerOk(st, Win(st, v), v)
  {
    hide WellFormed, Junk, Justified, LeaderOk;
  }

  lemma WinnerLeads(st: State, v: nat)
    requires InvEvents(st) && v < |st.servers| && st.servers[v].term !in st.llog
    requires st.servers[v].good == |st.servers[v].log|
    requires forall p :: 0 <= p < |st.servers[v].log| ==> st.servers[v].log[p].term < st.servers[v].term
    ensures LeaderOk(Win(st, v), v)
  {
    forall e | e in st.commits
      ensures e.term != st.servers[v].term
    {
      assert EventOk(st, e);
    }
  }

  lemma LedTerms(st: State)
    requires InvLogs(st)
    ensures st.lead.Keys == st.llog.Keys - {0}
  {
  }

  // ---------- A leader's own steps ----------

  lemma ClientLogs(st: State, v: nat, cmd: Command)
    requires InvLogs(st) && InvLeaders(st) && InvCarried(st) && v < |st.servers| && st.servers[v].role == Leader
    requires ServerOk(st, st.servers[v])
    requires OnlyChanges(st, Client(st, v, cmd), v) && InvAcks(st)
    ensures NewLogsOk(st, Client(st, v, cmd), v)
  {
    hide InvAcks, InvCarried, InvLogs, Junk, Justified, WellFormed, ServerOk, Carried;
    var st', s := Client(st, v, cmd), st.servers[v];
    ClientWellFormed(st, v, cmd);
    LeaderLed(st, v);
    forall u, t, i: nat | u in st'.llog && t < u && OwnEntry(st', t, i) && !(u in st.llog && OwnEntry(st, t, i))
      ensures Carried(st', u, t, i)
    {
      assert t == s.term && i == |s.log|;
      LedTerms(st);
      NewEntryBlocked(st, st', v, u, i);
      BlockedIsCarried(st', u, t, i);
    }
  }

  lemma BlockedIsCarried(st: State, u: nat, t: nat, i: nat)
    requires u in st.llog && t in st.llog && Blocked(st, t, i)
    ensures Carried(st, u, t, i)
  {
  }

  lemma LeaderLed(st: State, v: nat)
    requires InvLeaders(st) && v < |st.servers| && st.servers[v].role == Leader
    ensures var s := st.servers[v];
            && s.term in st.lead && s.term in st.llog && st.llog[s.term] == s.log && st.lead[s.term] == v
  {
    assert LeaderOk(st, v);
  }

  lemma ClientWellFormed(st: State, v: nat, cmd: Command)
    requires InvLogs(st) && InvLeaders(st) && v < |st.servers| && st.servers[v].role == Leader
    requires ServerOk(st, st.servers[v]) && OnlyChanges(st, Client(st, v, cmd), v)
    ensures InvLogs(Client(st, v, cmd)) && Client(st, v, cmd).lead == st.lead
  {
    hide Junk, Justified, ServerOk, LeaderOk, Majority, VoteSet, AtTerm;
    var st', s := Client(st, v, cmd), st.servers[v];
    LeaderLed(st, v);
    var log := st'.llog[s.term];
    forall t | t in st.llog
      ensures WellFormed(st', st'.llog[t], |st'.llog[t]|)
    {
      WellFormedGrows(st, st', st.llog[t], |st.llog[t]|);
      if t == s.term {
        forall p | 0 <= p < |log|
          ensures Ref(st', log, p)
        {
          if p < |s.log| {
            assert Ref(st', st.llog[t], p);
          }
        }
      }
    }
  }

  /** A deposed leader's fresh entry is blocked: a majority has already moved to a later term. */
  lemma NewEntryBlocked(st: State, st': State, v: nat, u: nat, i: nat)
    requires InvLeaders(st) && InvAcks(st) && OnlyChanges(st, st', v) && st.servers[v].role == Leader
    requires u in st.lead && st.servers[v].term < u && i == |st.servers[v].log|
    requires st'.acks == st.acks + {Ack(v, st.servers[v].term, i)}
    ensures Blocked(st', st.servers[v].term, i)
  {
    var t := st.servers[v].term;
    assert LeaderOk(st, v);
    forall w | w in AtTerm(st, u)
      ensures w in BlockSet(st', t, i)
    {
      assert Ack(w, t, i) in st.acks ==> AckOk(st, Ack(w, t, i));
    }
    SubsetSize(AtTerm(st, u), BlockSet(st', t, i));
  }

  lemma ClientAcks(st: State, v: nat, cmd: Command)
    requires InvLogs(st) && InvAcks(st) && v < |st.servers| && LeaderOk(st, v) && st.servers[v].role == Leader
    requires ServerOk(st, st.servers[v])
    requires OnlyChanges(st, Client(st, v, cmd), v)
    ensures NewAcksOk(st, Client(st, v, cmd), v)
  {
    hide InvLogs, Junk, Justified, WellFormed;
    var st', s := Client(st, v, cmd), st.servers[v];
    forall a | a in st'.acks && (a !in st.acks || a.who == v)
      ensures AckOk(st', a)
    {
      if a in st.acks {
        assert AckOk(st, a);
        assert Extends(st, st', a.term);
        if Blocked(st, a.term, a.index) {
          BlockedGrows(st, st', a.term, a.index);
        }
      }
    }
  }

  lemma ClientServer(st: State, v: nat, cmd: Command)
    requires InvLogs(st) && v < |st.servers| && LeaderOk(st, v) && st.servers[v].role == Leader
    requires ServerOk(st, st.servers[v]) && OnlyChanges(st, Client(st, v, cmd), v)
    ensures NewServerOk(st, Client(st, v, cmd), v)
  {
    hide InvLogs;
    var st', s := Client(st, v, cmd), st.servers[v];
    ServerOkGrows(st, st', s);
    var s' := st'.servers[v];
    forall p | 0 <= p < |s'.log|
      ensures Ref(st', s'.log, p)
    {
      if p < |s.log| {
        assert Ref(st', s.log, p);
      }
    }
  }

  lemma ClientKeeps(st: State, v: nat, cmd: Command)
    requires Inv(st) && v < |st.servers| && st.servers[v].role == Leader
    ensures Inv(Client(st, v, cmd)) && Grows(st, Client(st, v, cmd))
  {
    hide InvLogs, InvServers, InvLeaders, InvCandidates, InvAcks, InvVotes, InvCarried, InvEvents, InvMsgs,
         ServerOk, NewServerOk, NewLogsOk, NewAcksOk, NewHistoryOk;
    var st', s := Client(st, v, cmd), st.servers[v];
    Member(st, v);
    assert Grows(st, st') && OnlyChanges(st, st', v);
    ClientLogs(st, v, cmd);
    ClientAcks(st, v, cmd);
    ClientServer(st, v, cmd);
    KeptHistory(st, st', v);
    Rebuild(st, st', v);
  }

  /** A step that only records a message. */
  lemma SendKeeps(st: State, st': State)
    requires Inv(st) && Grows(st, st') && |st.servers| > 0
    requires st' == st.(appends := st'.appends, snaps := st'.snaps)
    requires NewHistoryOk(st, st', 0)
    ensures Inv(st')
  {
    hide InvLogs, InvMsgs, InvCarried, InvVotes, InvEvents, ServerOk, NewLogsOk, NewAcksOk, NewHistoryOk, NewServerOk;
    KeptLogs(st, st', 0);
    KeptAcks(st, st', 0);
    var s := st.servers[0];
    assert ServerOk(st, s) && LeaderOk(st, 0) && CandidateOk(st, 0);
    ServerOkGrows(st, st', s);
    KeptCandidate(st, st', 0);
    KeptServer(st, st', 0);
    Rebuild(st, st', 0);
  }

  lemma KeptServer(st: State, st': State, v: nat)
    requires InvLeaders(st) && OnlyChanges(st, st', v) && st'.servers[v] == st.servers[v]
    requires ServerOk(st', st'.servers[v]) && CandidateOk(st', v)
    requires st'.llog == st.llog && st'.lead == st.lead && st'.commits == st.commits && st'.acks == st.acks
    ensures NewServerOk(st, st', v)
  {
    assert LeaderOk(st, v);
  }

  lemma SendAppendKeeps(st: State, v: nat)
    requires Inv(st) && v < |st.servers| && st.servers[v].role == Leader
    ensures Inv(SendAppend(st, v)) && Grows(st, SendAppend(st, v))
  {
    hide InvLogs, InvMsgs, InvCarried, InvVotes, InvEvents, InvAcks, InvCandidates;
    var st', s := SendAppend(st, v), st.servers[v];
    assert ServerOk(st, s) && LeaderOk(st, v);
    var m := AppendMsg(s.term, s.log, s.commit, s.event);
    assert AppendOk(st, m);
    AppendOkGrows(st, st', m);
    SendKeeps(st, st');
  }

  lemma SendSnapKeeps(st: State, v: nat, k: nat)
    requires Inv(st) && v < |st.servers| && k <= st.servers[v].commit && k < |st.servers[v].log|
    ensures Inv(SendSnap(st, v, k)) && Grows(st, SendSnap(st, v, k))
  {
    hide InvLogs, InvMsgs, InvCarried, InvVotes, InvEvents, InvAcks, InvCandidates, InvLeaders;
    var st', s := SendSnap(st, v, k), st.servers[v];
    assert ServerOk(st, s);
    var m := SnapMsg(s.term, s.log[..k + 1], s.event);
    assert SnapOk(st, m);
    SnapOkGrows(st, st', m);
    SendKeeps(st, st');
  }

  lemma CommitServer(st: State, v: nat, i: nat)
    requires InvLogs(st) && InvLeaders(st) && v < |st.servers| && st.servers[v].role == Leader && ServerOk(st, st.servers[v])
    requires st.servers[v].commit < i < |st.servers[v].log| && st.servers[v].log[i].term == st.servers[v].term
    requires OnlyChanges(st, Commit(st, v, i), v)
    ensures NewServerOk(st, Commit(st, v, i), v)
  {
    hide InvLogs, Junk;
    var st', s := Commit(st, v, i), st.servers[v];
    assert LeaderOk(st, v);
    WellFormedGrows(st, st', s.log, s.good);
  }

  lemma CommitKeeps(st: State, v: nat, i: nat)
    requires Inv(st) && v < |st.servers| && MayCommit(st, v, i)
    ensures Inv(Commit(st, v, i)) && Grows(st, Commit(st, v, i))
  {
    hide InvLogs, InvServers, InvLeaders, InvCandidates, InvAcks, InvVotes, InvCarried, InvEvents, InvMsgs,
         ServerOk, NewServerOk, NewLogsOk, NewAcksOk;
    var st', s := Commit(st, v, i), st.servers[v];
    Member(st, v);
    assert Grows(st, st') && OnlyChanges(st, st', v);
    CommitServer(st, v, i);
    KeptLogs(st, st', v);
    KeptAcks(st, st', v);
    assert EventOk(st', Event(s.term, i)) by {
      SubsetSize(AckSet(st, s.term, i), AckSet(st', s.term, i));
    }
    Rebuild(st, st', v);
  }

  // ---------- Accepting an append request ----------

  /** A kept tail never agrees with a leader's log. */
  lemma TailDiffers(st: State, log: seq<Entry>, good: nat, u: nat, p: nat)
    requires InvLogs(st) && u in st.llog && good <= p && Agree(log, st.llog[u], p + 1)
    ensures !Junk(st, log, good, p)
  {
    assert Ref(st, st.llog[u], p);
  }

  lemma AgreeIsGood(st: State, s: Server, u: nat, n: nat)
    requires InvLogs(st) && ServerOk(st, s) && u in st.llog && Agree(s.log, st.llog[u], n)
    ensures n <= s.good
  {
    hide InvLogs, WellFormed, Justified;
    if n > s.good {
      TailDiffers(st, s.log, s.good, u, s.good);
    }
  }

  /** Of two logs that follow a third, the first is a prefix of the second or runs past n entries. */
  lemma PrefixOrLonger(a: seq<Entry>, b: seq<Entry>, l: seq<Entry>, n: nat)
    requires Agree(a, l, |a|) && Agree(b, l, n)
    ensures a <= b || |a| > n
  {
    if |a| <= n {
      assert forall i :: 0 <= i < |a| ==> a[i] == b[i];
    }
  }

  /** What a server has committed is in the log of every leader it may follow. */
  lemma CommitInLeader(st: State, s: Server, u: nat)
    requires InvCarried(st) && InvEvents(st) && ServerOk(st, s) && u in st.llog && u >= s.term
    ensures Agree(s.log, st.llog[u], s.commit + 1)
  {
    hide InvCarried, WellFormed, Junk;
    LeaderCompleteness(st, s.event, u);
  }

  lemma CommitInRequest(st: State, s: Server, m: AppendMsg)
    requires InvCarried(st) && InvEvents(st) && ServerOk(st, s) && AppendOk(st, m) && m.term >= s.term
    requires !(m.log <= s.log)
    ensures s.commit < |m.log| && Agree(m.log, s.log, s.commit + 1)
  {
    hide InvCarried, InvEvents, WellFormed, Junk, Justified;
    CommitInLeader(st, s, m.term);
    PrefixOrLonger(m.log, s.log, st.llog[m.term], s.commit + 1);
  }

  lemma AcceptServer(st: State, v: nat, m: AppendMsg)
    requires InvLogs(st) && InvCarried(st) && InvEvents(st)
    requires v < |st.servers| && AppendOk(st, m) && m.term >= st.servers[v].term
    requires ServerOk(st, st.servers[v])
    ensures ServerOk(st, Accept(st, v, m).servers[v])
  {
    hide InvCarried, InvEvents;
    var s := st.servers[v];
    if m.log <= s.log {
      hide InvLogs;
      AgreeIsGood(st, s, m.term, |m.log|);
    } else {
      CommitInRequest(st, s, m);
      forall p | 0 <= p < |m.log|
        ensures Ref(st, m.log, p) && m.log[p].index == p && m.log[p].term <= m.term
      {
        assert Ref(st, st.llog[m.term], p);
        assert m.log[p] == st.llog[m.term][p];
      }
    }
  }

  /** An entry acknowledged earlier survives the request, unless a newer leader lacks it. */
  lemma AcceptKeepsAck(st: State, v: nat, m: AppendMsg, a: Ack)
    requires InvLogs(st) && InvCarried(st) && v < |st.servers| && AppendOk(st, m) && m.term >= st.servers[v].term
    requires AckOk(st, a) && a.who == v
    ensures |Accept(st, v, m).servers[v].log| > 0
    ensures Holds(st, Accept(st, v, m).servers[v].log, a) || Blocked(st, a.term, a.index) || a in st.forgot
  {
    hide InvLogs, Blocked, Justified;
    var s := st.servers[v];
    if !(m.log <= s.log) && !Blocked(st, a.term, a.index) && a !in st.forgot {
      assert a.term < m.term ==> Carried(st, m.term, a.term, a.index);
      assert Agree(st.llog[m.term], st.llog[a.term], a.index + 1);
      PrefixOrLonger(m.log, s.log, st.llog[m.term], a.index + 1);
      LastTerm(st, m.log, m.term, a.index);
    }
  }

  /** The last term of a prefix of a leader's log is at least that of any entry in it. */
  lemma LastTerm(st: State, log: seq<Entry>, t: nat, i: nat)
    requires InvLogs(st) && t in st.llog && Agree(log, st.llog[t], |log|) && i < |log|
    ensures Last(log).term >= log[i].term
  {
    TermsMonotone(st, st.llog[t], |st.llog[t]|, i, |log| - 1);
  }

  lemma AcceptAcks(st: State, v: nat, m: AppendMsg)
    requires InvLogs(st) && InvCarried(st) && InvAcks(st) && v < |st.servers| && AppendOk(st, m) && m.term >= st.servers[v].term
    requires OnlyChanges(st, Accept(st, v, m), v) && ServerOk(st, st.servers[v])
    ensures NewAcksOk(st, Accept(st, v, m), v)
  {
    hide InvLogs, InvCarried, Justified, Junk;
    var st' := Accept(st, v, m);
    var s, s' := st.servers[v], st'.servers[v];
    forall a | a in st'.acks && (a !in st.acks || a.who == v)
      ensures AckOk(st', a)
    {
      if a in st.acks {
        AcceptKeepsAck(st, v, m, a);
        if Blocked(st, a.term, a.index) {
          BlockedGrows(st, st', a.term, a.index);
        }
      } else if m.log <= s.log {
        assert s'.log[a.index] == m.log[a.index];
        TermsMonotone(st, s.log, s.good, a.index, |s.log| - 1);
      } else {
        LastTerm(st, m.log, m.term, a.index);
      }
    }
  }

  lemma AcceptKeeps(st: State, v: nat, m: AppendMsg)
    requires Inv(st) && v < |st.servers| && m in st.appends && m.term >= st.servers[v].term
    ensures Inv(Accept(st, v, m)) && Grows(st, Accept(st, v, m))
  {
    hide InvLogs, InvMsgs, InvCarried, InvVotes, InvEvents, InvAcks, WellFormed, Junk, Justified, NewLogsOk, NewAcksOk,
         NewHistoryOk;
    var st', s := Accept(st, v, m), st.servers[v];
    GetAppend(st, m);
    assert ServerOk(st, s);
    assert Grows(st, st') && OnlyChanges(st, st', v);
    KeptLogs(st, st', v);
    KeptHistory(st, st', v);
    AcceptServer(st, v, m);
    ServerOkGrows(st, st', st'.servers[v]);
    AcceptAcks(st, v, m);
    Rebuild(st, st', v);
  }

  lemma GetAppend(st: State, m: AppendMsg)
    requires InvMsgs(st) && m in st.appends
    ensures AppendOk(st, m)
  {
  }

  lemma GetSnap(st: State, m: SnapMsg)
    requires InvMsgs(st) && m in st.snaps
    ensures SnapOk(st, m)
  {
  }

  // ---------- Installing a snapshot ----------

  /** The covered prefix becomes good; whatever tail is left is good or kept unchecked. */
  lemma InstallServer(st: State, s: Server, m: SnapMsg)
    requires InvLogs(st) && InvCarried(st) && InvEvents(st) && SnapOk(st, m) && ServerOk(st, s)
    requires m.term <= s.term && |m.log| - 1 > s.commit
    ensures ServerOk(st, Installed(s, m))
  {
    hide InvCarried, InvEvents;
    var s' := Installed(s, m);
    var k := |m.log|;
    var e := m.event;
    CommitsAgree(st, s.event, e, s.commit);
    assert Agree(m.log, s.log, s.commit + 1);
    forall p | 0 <= p < s'.good
      ensures Ref(st, s'.log, p)
    {
      if p < k {
        assert Ref(st, st.llog[e.term], p);
      } else {
        assert s'.log[p] == s.log[p];
        assert Ref(st, s.log, p);
      }
    }
    forall p | 0 <= p < |s'.log|
      ensures s'.log[p].term <= s'.term && s'.log[p].index == p
    {
      if p < k {
        assert m.log[p] == st.llog[e.term][p];
      }
    }
    forall p | s'.good <= p < |s'.log|
      ensures Junk(st, s'.log, s'.good, p)
    {
      InstallTail(st, s, m, p);
    }
  }

  /** If a third log that follows b for n entries also holds a, then a is a prefix of b. */
  lemma SamePrefix(a: seq<Entry>, b: seq<Entry>, l: seq<Entry>, n: nat)
    requires |a| <= n && Agree(b, l, n)
    ensures Agree(l, a, |a|) ==> a <= b
  {
    if Agree(l, a, |a|) {
      assert forall i :: 0 <= i < |a| ==> a[i] == b[i];
    }
  }

  lemma InstallTail(st: State, s: Server, m: SnapMsg, p: nat)
    requires ServerOk(st, s) && |m.log| - 1 > s.commit && Agree(m.log, s.log, s.commit + 1)
    requires Installed(s, m).good <= p < |Installed(s, m).log|
    ensures Junk(st, Installed(s, m).log, Installed(s, m).good, p)
  {
    hide Justified;
    var s' := Installed(s, m);
    var k := |m.log|;
    var t := s.log[p].term;
    assert s'.log[p] == s.log[p];
    if p < s.good {
      assert Ref(st, s.log, p);
      SamePrefix(m.log, s.log, st.llog[t], p + 1);
    } else {
      assert Junk(st, s.log, s.good, p);
      assert s.good <= k;
    }
  }

  /**
   * After an install every entry is what its term's leader had, with all before it, exactly when
   * no tail is left or the log had the snapshot's term at the snapshot's index.
   */
  lemma InstallMatches(st: State, s: Server, m: SnapMsg)
    requires InvLogs(st) && InvCarried(st) && InvEvents(st) && SnapOk(st, m) && ServerOk(st, s)
    requires m.term <= s.term && |m.log| - 1 > s.commit
    ensures WellFormed(st, Installed(s, m).log, |Installed(s, m).log|) <==>
            |s.log| <= |m.log| || s.log[|m.log| - 1].term == m.log[|m.log| - 1].term
  {
    hide InvLogs, InvCarried, InvEvents, Justified, SnapOk, Junk, ServerOk;
    var s', k := Installed(s, m), |m.log| - 1;
    InstallServer(st, s, m);
    GoodPart(st, s');
    if |s.log| > |m.log| {
      if s.log[k].term == m.log[k].term {
        SameTermSameLog(st, s, m);
        InstallAgreed(s, m);
        GoodPart(st, s);
      } else {
        TailBehind(st, s, m);
      }
    }
  }

  lemma GoodPart(st: State, s: Server)
    requires ServerOk(st, s)
    ensures WellFormed(st, s.log, s.good) && s.good <= |s.log|
  {
  }

  /** The log agrees with the snapshot at its index, so it is good past it and holds all of it. */
  lemma SameTermSameLog(st: State, s: Server, m: SnapMsg)
    requires InvLogs(st) && InvCarried(st) && InvEvents(st) && SnapOk(st, m) && ServerOk(st, s)
    requires m.term <= s.term && |m.log| - 1 > s.commit && |s.log| > |m.log|
    requires s.log[|m.log| - 1].term == m.log[|m.log| - 1].term
    ensures s.good == |s.log| && Agree(m.log, s.log, |m.log|)
  {
    hide InvCarried, InvEvents;
    var e, k, t := m.event, |m.log| - 1, m.log[|m.log| - 1].term;
    CommitsAgree(st, s.event, e, s.commit);
    assert Ref(st, st.llog[e.term], k);
    assert k >= s.good ==> Junk(st, s.log, s.good, k);
    assert k < s.good ==> Ref(st, s.log, k);
  }

  /** Otherwise the first entry of the tail is behind a prefix its leader did not have. */
  lemma TailBehind(st: State, s: Server, m: SnapMsg)
    requires InvCarried(st) && InvEvents(st) && SnapOk(st, m) && ServerOk(st, s)
    requires |m.log| - 1 > s.commit && |s.log| > |m.log|
    requires s.log[|m.log| - 1].term != m.log[|m.log| - 1].term
    ensures !WellFormed(st, Installed(s, m).log, |Installed(s, m).log|)
  {
    hide InvCarried, InvEvents, WellFormed, Junk;
    var s', p := Installed(s, m), |m.log|;
    CommitsAgree(st, s.event, m.event, s.commit);
    assert Agree(m.log, s.log, s.commit + 1);
    assert s.log[p - 1] != m.log[p - 1];
    InstallTail(st, s, m, p);
    JunkNotRef(st, s'.log, s'.good, p);
  }

  lemma JunkNotRef(st: State, log: seq<Entry>, good: nat, p: nat)
    requires p < |log| && Junk(st, log, good, p)
    ensures !WellFormed(st, log, |log|)
  {
    assert !Ref(st, log, p);
  }

  /** Installing what the log already holds changes no entry. */
  lemma InstallAgreed(s: Server, m: SnapMsg)
    requires |m.log| > 0 && Agree(m.log, s.log, |m.log|)
    ensures Installed(s, m).log == s.log
    ensures |m.log| <= s.good ==> Installed(s, m).good == s.good
  {
    assert m.log + s.log[|m.log|..] == s.log;
  }

  lemma InstallKeepsAck(st: State, s: Server, m: SnapMsg, a: Ack)
    requires InvLogs(st) && InvCarried(st) && InvEvents(st) && SnapOk(st, m) && m.term <= s.term
    requires OwnEntry(st, a.term, a.index) && |s.log| > 0 && Holds(st, s.log, a)
    ensures |Installed(s, m).log| > 0
    ensures Holds(st, Installed(s, m).log, a) || Blocked(st, a.term, a.index)
  {
    hide InvLogs, InvCarried, InvEvents, Blocked, Holds;
    if !Blocked(st, a.term, a.index) {
      SnapMeetsAck(st, m, a);
      if a.index < |m.log| {
        CoveredAck(st, s, m, a);
      } else {
        KeptAck(st, s, m, a);
      }
    }
  }

  /** The snapshot and an acknowledged entry that is not blocked lie on one line. */
  lemma SnapMeetsAck(st: State, m: SnapMsg, a: Ack)
    requires InvCarried(st) && InvEvents(st) && SnapOk(st, m) && OwnEntry(st, a.term, a.index) && !Blocked(st, a.term, a.index)
    ensures forall i :: 0 <= i < |m.log| && i <= a.index ==> m.log[i] == st.llog[a.term][i]
    ensures m.event.term <= a.term || Agree(st.llog[m.event.term], st.llog[a.term], a.index + 1)
  {
    hide InvEvents, Blocked;
    var e := m.event;
    if e.term <= a.term {
      LeaderCompleteness(st, e, a.term);
    } else {
      assert Carried(st, e.term, a.term, a.index);
    }
  }

  lemma CoveredAck(st: State, s: Server, m: SnapMsg, a: Ack)
    requires InvLogs(st) && SnapOk(st, m) && OwnEntry(st, a.term, a.index) && |s.log| > 0 && Holds(st, s.log, a)
    requires a.index < |m.log| && forall i :: 0 <= i < |m.log| && i <= a.index ==> m.log[i] == st.llog[a.term][i]
    ensures |Installed(s, m).log| > 0 && Holds(st, Installed(s, m).log, a)
  {
    hide InvLogs;
    LastTerm(st, m.log, m.event.term, a.index);
  }

  lemma KeptAck(st: State, s: Server, m: SnapMsg, a: Ack)
    requires SnapOk(st, m) && OwnEntry(st, a.term, a.index) && |s.log| > 0 && Holds(st, s.log, a) && a.index >= |m.log|
    requires forall i :: 0 <= i < |m.log| && i <= a.index ==> m.log[i] == st.llog[a.term][i]
    ensures |Installed(s, m).log| > 0 && Holds(st, Installed(s, m).log, a)
  {
    InstallAgreed(s, m);
  }

  lemma InstallAcks(st: State, v: nat, m: SnapMsg)
    requires InvLogs(st) && InvCarried(st) && InvEvents(st) && InvAcks(st) && SnapOk(st, m)
    requires v < |st.servers| && m.term <= st.servers[v].term && OnlyChanges(st, Install(st, v, m), v)
    ensures NewAcksOk(st, Install(st, v, m), v)
  {
    hide InvLogs, InvCarried, InvEvents, SnapOk;
    var st', s := Install(st, v, m), st.servers[v];
    forall a | a in st'.acks && a.who == v
      ensures AckOk(st', a)
    {
      assert AckOk(st, a);
      if Holds(st, s.log, a) {
        InstallKeepsAck(st, s, m, a);
      }
      if Blocked(st, a.term, a.index) {
        BlockedGrows(st, st', a.term, a.index);
      }
    }
  }

  /** A leader already holds what the snapshot covers. */
  lemma InstallLeader(st: State, v: nat, m: SnapMsg)
    requires v < |st.servers|
    requires InvCarried(st) && InvEvents(st) && SnapOk(st, m) && OnlyChanges(st, Install(st, v, m), v)
    requires LeaderOk(st, v) && m.term <= st.servers[v].term && |m.log| - 1 > st.servers[v].commit
    ensures LeaderOk(Install(st, v, m), v)
  {
    hide InvCarried, InvEvents;
    var s := st.servers[v];
    if s.role == Leader {
      LeaderCompleteness(st, m.event, s.term);
      InstallAgreed(s, m);
    }
  }

  /** A candidate that can still win does too; one that lacks it has lost. */
  lemma InstallCandidate(st: State, v: nat, m: SnapMsg)
    requires v < |st.servers|
    requires InvLogs(st) && SnapOk(st, m) && OnlyChanges(st, Install(st, v, m), v)
    requires CandidateOk(st, v) && ServerOk(st, st.servers[v]) && m.term <= st.servers[v].term
    ensures CandidateOk(Install(st, v, m), v)
  {
    hide InvLogs, WellFormed, Junk, Justified;
    var st', s := Install(st, v, m), st.servers[v];
    var e, k := m.event, |m.log|;
    assert HasEvent(st, e) && e.term <= s.term && k <= e.index + 1 && Agree(m.log, st.llog[e.term], k) by {
      SnapFacts(st, m);
    }
    if s.role == Candidate && s.term !in st.llog {
      var r := st.reqs[Ballot(s.term, v)];
      if Misses(st, r.log, s.term) {
        MissesGrows(st, st', r.log, s.term);
      } else {
        assert e.term < s.term;
        assert Agree(s.log, st.llog[e.term], e.index + 1);
        InstallAgreed(s, m);
        AgreeIsGood(st, s, e.term, k);
      }
    }
  }

  lemma SnapFacts(st: State, m: SnapMsg)
    requires SnapOk(st, m)
    ensures HasEvent(st, m.event) && m.event.term <= m.term
    ensures 0 < |m.log| <= m.event.index + 1 && Agree(m.log, st.llog[m.event.term], |m.log|)
  {
  }

  lemma InstallRoles(st: State, v: nat, m: SnapMsg)
    requires v < |st.servers| && SnapOk(st, m)
    requires InvLogs(st) && InvCarried(st) && InvEvents(st)
    requires OnlyChanges(st, Install(st, v, m), v)
    requires ServerOk(st, st.servers[v]) && LeaderOk(st, v) && CandidateOk(st, v) && ServerOk(st, Install(st, v, m).servers[v])
    requires m.term <= st.servers[v].term && |m.log| - 1 > st.servers[v].commit
    requires st.servers[v].role == Candidate ==>
               forall t :: t in st.lead && st.lead[t] == v ==> st.servers[v].term != t
    ensures NewServerOk(st, Install(st, v, m), v)
  {
    hide InvLogs, InvCarried, InvEvents, ServerOk, LeaderOk, CandidateOk, SnapOk;
    var st' := Install(st, v, m);
    InstallLeader(st, v, m);
    InstallCandidate(st, v, m);
    ServerOkGrows(st, st', st'.servers[v]);
  }

  lemma InstallKeeps(st: State, v: nat, m: SnapMsg)
    requires Inv(st) && v < |st.servers| && m in st.snaps
    requires m.term <= st.servers[v].term && |m.log| > 0 && |m.log| - 1 > st.servers[v].commit
    ensures Inv(Install(st, v, m)) && Grows(st, Install(st, v, m))
  {
    hide InvLogs, InvServers, InvLeaders, InvCandidates, InvAcks, InvVotes, InvCarried, InvEvents, InvMsgs,
         ServerOk, NewServerOk, NewLogsOk, NewAcksOk, NewHistoryOk;
    var st', s := Install(st, v, m), st.servers[v];
    GetSnap(st, m);
    Member(st, v);
    assert Grows(st, st') && OnlyChanges(st, st', v);
    KeptLogs(st, st', v);
    KeptHistory(st, st', v);
    InstallServer(st, s, m);
    InstallRoles(st, v, m);
    InstallAcks(st, v, m);
    Rebuild(st, st', v);
  }

  // ---------- Confirming and crashing ----------

  lemma ConfirmKeeps(st: State, v: nat)
    requires Inv(st) && v < |st.servers| && MayConfirm(st, v)
    ensures Inv(Confirm(st, v)) && Grows(st, Confirm(st, v))
  {
    hide InvLogs, InvServers, InvLeaders, InvCandidates, InvAcks, InvVotes, InvCarried, InvEvents, InvMsgs,
         ServerOk, NewServerOk, NewLogsOk, NewAcksOk, NewHistoryOk;
    var st' := Confirm(st, v);
    Member(st, v);
    assert Grows(st, st') && OnlyChanges(st, st', v);
    KeptLogs(st, st', v);
    KeptHistory(st, st', v);
    ConfirmAcks(st, v);
    ServerOkGrows(st, st', st.servers[v]);
    KeptCandidate(st, st', v);
    ConfirmServer(st, v);
    Rebuild(st, st', v);
  }

  lemma ConfirmAcks(st: State, v: nat)
    requires InvAcks(st) && v < |st.servers| && MayConfirm(st, v) && OnlyChanges(st, Confirm(st, v), v)
    ensures NewAcksOk(st, Confirm(st, v), v)
  {
    var st' := Confirm(st, v);
    forall a | a in st.acks
      ensures AckOk(st', a)
    {
      assert AckOk(st, a);
      AckOkGrows(st, st', a);
    }
  }

  lemma ConfirmServer(st: State, v: nat)
    requires v < |st.servers| && LeaderOk(st, v) && OnlyChanges(st, Confirm(st, v), v)
    requires ServerOk(Confirm(st, v), st.servers[v]) && CandidateOk(Confirm(st, v), v)
    requires st.servers[v].role == Candidate ==>
               forall t :: t in st.lead && st.lead[t] == v ==> st.servers[v].term != t
    ensures NewServerOk(st, Confirm(st, v), v)
  {
  }

  /** What a server that lost the end of its log still acknowledges, it still holds. */
  lemma CrashAcks(st: State, v: nat, c: nat, k: nat)
    requires InvAcks(st) && InvLogs(st) && v < |st.servers| && MayCrash(st, v, c, k) && OnlyChanges(st, Crash(st, v, c, k), v)
    requires ServerOk(st, st.servers[v]) && LeaderOk(st, v)
    ensures NewAcksOk(st, Crash(st, v, c, k), v)
  {
    hide InvAcks, InvLogs, WellFormed, Junk, Justified;
    var st', s := Crash(st, v, c, k), st.servers[v];
    var log := s.log[..k];
    forall a | a in st'.acks && a.who == v
      ensures AckOk(st', a)
    {
      GetAck(st, a);
      if a !in st'.forgot {
        if Blocked(st, a.term, a.index) {
          BlockedGrows(st, st', a.term, a.index);
        } else {
          StillHeld(st, s, k, a);
        }
      }
    }
  }

  lemma GetAck(st: State, a: Ack)
    requires InvAcks(st) && a in st.acks
    ensures AckOk(st, a)
  {
  }

  lemma StillHeld(st: State, s: Server, k: nat, a: Ack)
    requires InvLogs(st) && ServerOk(st, s) && OwnEntry(st, a.term, a.index) && Holds(st, s.log, a)
    requires 0 < k <= |s.log| && (k < |s.log| ==> s.good == |s.log|)
    requires forall p :: k <= p < |s.log| ==> s.log[p].term == s.term
    requires !(a.term == s.term && a.index >= k)
    ensures Holds(st, s.log[..k], a)
  {
    hide InvLogs, WellFormed, Junk, Justified;
    if k == |s.log| {
      assert s.log[..k] == s.log;
    } else {
      assert s.log[a.index] == st.llog[a.term][a.index];
      TermsMonotone(st, s.log, s.good, a.index, k - 1);
    }
  }

  lemma CrashServer(st: State, v: nat, c: nat, k: nat)
    requires v < |st.servers| && MayCrash(st, v, c, k) && OnlyChanges(st, Crash(st, v, c, k), v)
    requires ServerOk(st, st.servers[v]) && LeaderOk(st, v)
    ensures NewServerOk(st, Crash(st, v, c, k), v) && NewForgotOk(st, Crash(st, v, c, k), v)
  {
    var st', s := Crash(st, v, c, k), st.servers[v];
    ServerOkGrows(st, st', s);
    var s' := st'.servers[v];
    assert k < |s.log| ==> s.good == |s.log|;
    assert k == |s.log| ==> s.log[..k] == s.log;
    forall p | 0 <= p < s'.good
      ensures Ref(st', s'.log, p)
    {
      assert Ref(st', s.log, p);
    }
  }

  /** The crash costs a committed entry at most one server's word, and enough others stand by it. */
  lemma CrashEvents(st: State, v: nat, c: nat, k: nat)
    requires InvEvents(st) && InvLeaders(st) && v < |st.servers| && MayCrash(st, v, c, k) && OnlyChanges(st, Crash(st, v, c, k), v)
    ensures NewHistoryOk(st, Crash(st, v, c, k), v)
  {
    var st', s := Crash(st, v, c, k), st.servers[v];
    forall e | e in st.commits
      ensures EventOk(st', e)
    {
      assert EventOk(st, e);
      var before, after := AckSet(st, e.term, e.index), AckSet(st', e.term, e.index);
      if e.term == s.term && k <= e.index < |s.log| {
        SubsetSize(before - {v}, after);
      } else {
        SubsetSize(before, after);
      }
    }
  }

  lemma CrashKeeps(st: State, v: nat, c: nat, k: nat)
    requires Inv(st) && v < |st.servers| && MayCrash(st, v, c, k)
    ensures Inv(Crash(st, v, c, k)) && Grows(st, Crash(st, v, c, k))
  {
    hide InvLogs, InvServers, InvLeaders, InvCandidates, InvAcks, InvVotes, InvCarried, InvEvents, InvMsgs,
         ServerOk, NewServerOk, NewForgotOk, NewLogsOk, NewAcksOk, NewHistoryOk;
    var st' := Crash(st, v, c, k);
    Member(st, v);
    assert Grows(st, st') && OnlyChanges(st, st', v);
    KeptLogs(st, st', v);
    CrashAcks(st, v, c, k);
    CrashServer(st, v, c, k);
    CrashEvents(st, v, c, k);
    Rebuild(st, st', v);
  }

  /** Every move keeps the invariant and what has been recorded. */
  lemma MoveKeeps(st: State, m: Move)
    requires Inv(st) && MayMove(st, m)
    ensures Inv(AfterMove(st, m)) && Grows(st, AfterMove(st, m))
  {
    hide Inv, Grows, MayGrant, MayWin, MayCommit, MayConfirm, MayCrash;
    match m {
      case TimeoutMove(v) => TimeoutKeeps(st, v);
      case StepDownMove(v, t) => StepDownKeeps(st, v, t);
      case GrantMove(v, b) => GrantKeeps(st, v, b);
      case WinMove(v) => WinKeeps(st, v);
      case ClientMove(v, cmd) => ClientKeeps(st, v, cmd);
      case SendAppendMove(v) => SendAppendKeeps(st, v);
      case SendSnapMove(v, k) => SendSnapKeeps(st, v, k);
      case AcceptMove(v, m) => AcceptKeeps(st, v, m);
      case InstallMove(v, m) => InstallKeeps(st, v, m);
      case CommitMove(v, i) => CommitKeeps(st, v, i);
      case ConfirmMove(v) => ConfirmKeeps(st, v);
      case CrashMove(v, c, k) => CrashKeeps(st, v, c, k);
    }
  }
}
