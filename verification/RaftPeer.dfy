/**
 * The server as the source writes it: an object whose handlers update its fields in place
 * under one lock.  Every method is proved to compute the function of `Handlers` that the
 * cluster is built from.
 */
module RaftPeer {
  import opened Types
  import opened LogStore
  import opened Rpc
  import opened Median
  import opened Handlers

  /** lab2/lab2C+D/persister.go: stable storage, with the encoding taken as lossless. */
  class Persister {
    var state: Stable
    var snapshot: seq<Command>

    constructor ()
      ensures state == Stable(0, -1, [Placeholder]) && snapshot == []
    {
      state := Stable(0, -1, [Placeholder]);
      snapshot := [];
    }

    method SaveRaftState(s: Stable)
      modifies this
      ensures state == s && snapshot == old(snapshot)
    {
      state := s;
    }

    method SaveStateAndSnapshot(s: Stable, data: seq<Command>)
      modifies this
      ensures state == s && snapshot == data
    {
      state := s;
      snapshot := data;
    }

    method ReadSnapshot() returns (data: seq<Command>)
      ensures data == snapshot
    {
      data := snapshot;
    }
  }

  /** Inserting where everything before is at most x and everything after is larger. */
  lemma {:induction false} InsertAt(s: seq<nat>, x: nat, j: nat)
    requires j <= |s| && (j == 0 || s[j - 1] <= x) && forall k :: j <= k < |s| ==> s[k] > x
    ensures Insert(s, x) == s[..j] + [x] + s[j..]
  {
    if j < |s| {
      var init := s[..|s| - 1];
      InsertAt(init, x, j);
      assert init[..j] == s[..j] && s[j..] == init[j..] + [Last(s)];
    }
  }

  lemma SortOneMore(s: seq<nat>, i: nat)
    requires i < |s|
    ensures Sort(s[..i + 1]) == Insert(Sort(s[..i]), s[i])
  {
    assert s[..i + 1][..i] == s[..i];
  }

  /** Moves a[i] down into the ascending prefix before it. */
  method InsertLast(a: array<nat>, i: nat)
    requires i < a.Length && Ascending(a[..i])
    modifies a
    ensures a[..i + 1] == Insert(old(a[..i]), old(a[i]))
    ensures forall k :: i < k < a.Length ==> a[k] == old(a[k])
  {
    ghost var sorted := a[..i];
    var x, j := a[i], i;
    while j > 0 && a[j - 1] > x
      invariant 0 <= j <= i
      invariant forall k :: 0 <= k < j ==> a[k] == sorted[k]
      invariant forall k :: j < k <= i ==> a[k] == sorted[k - 1]
      invariant j < i ==> sorted[j] > x
      invariant forall k :: i < k < a.Length ==> a[k] == old(a[k])
    {
      a[j] := a[j - 1];
      j := j - 1;
    }
    a[j] := x;
    InsertAt(sorted, x, j);
    assert a[..i + 1] == sorted[..j] + [x] + sorted[j..];
  }

  /** Stands for sort.Ints: sorts in place. */
  method SortInts(a: array<nat>)
    modifies a
    ensures a[..] == Sort(old(a[..]))
  {
    ghost var was := a[..];
    var i := 0;
    while i < a.Length
      invariant 0 <= i <= a.Length
      invariant a[..i] == Sort(was[..i])
      invariant forall k :: i <= k < a.Length ==> a[k] == was[k]
    {
      SortKeeps(was[..i], 0);
      InsertLast(a, i);
      SortOneMore(was, i);
      i := i + 1;
    }
    assert a[..] == a[..i] && was[..i] == was;
  }

  class Raft {
    const me: nat
    const peers: nat
    const persister: Persister

    var currentTerm: nat
    var votedFor: int
    var logs: Log
    var commitIndex: nat
    var lastApplied: nat
    const nextIndex: array<int>
    const matchIndex: array<nat>
    var role: Role
    var grantedVotes: nat
    var answered: set<nat>
    var pending: set<SnapshotMsg>

    ghost predicate Valid()
      reads this
    {
      && me < peers && nextIndex.Length == peers && matchIndex.Length == peers
      && (nextIndex as object) != (matchIndex as object)
      && Contiguous(logs)
    }

    ghost function Value(): Node
      reads this, nextIndex, matchIndex, persister
    {
      Node(me, peers, currentTerm, votedFor, logs, commitIndex, lastApplied, nextIndex[..], matchIndex[..],
           role, grantedVotes, answered, pending, persister.state, persister.snapshot)
    }

    /** Make: boot, or come back from a crash with what the persister holds. */
    constructor (me: nat, peers: nat, persister: Persister)
      requires me < peers && Contiguous(persister.state.logs)
      ensures Valid() && this.me == me && this.peers == peers && this.persister == persister
      ensures fresh(nextIndex) && fresh(matchIndex)
      ensures Value() == Restart(Boot(me, peers).(stable := persister.state, snapshot := persister.snapshot))
    {
      this.me, this.peers, this.persister := me, peers, persister;
      currentTerm, votedFor, logs := persister.state.term, persister.state.votedFor, persister.state.logs;
      lastApplied, commitIndex := persister.state.logs[0].index, persister.state.logs[0].index;
      role, grantedVotes, answered, pending := Follower, 0, {}, {};
      var next := LastLog(persister.state.logs).index + 1;
      nextIndex := new int[peers](_ => next);
      matchIndex := new nat[peers](_ => 0);
      new;
      assert nextIndex[..] == seq(peers, _ => next);
      assert matchIndex[..] == seq(peers, _ => 0);
    }

    method Persist()
      requires Valid()
      modifies persister
      ensures Value() == Handlers.Persist(old(Value()))
    {
      persister.SaveRaftState(Stable(currentTerm, votedFor, logs));
    }

    method ChangeState(to: Role)
      requires Valid()
      modifies this`role, nextIndex, matchIndex
      ensures Value() == Handlers.ChangeState(old(Value()), to)
    {
      if role == to {
        return;
      }
      role := to;
      if to == Leader {
        var next := LastLog(logs).index + 1;
        for i := 0 to peers
          modifies nextIndex, matchIndex
          invariant forall k :: 0 <= k < i ==> nextIndex[k] == next && matchIndex[k] == 0
        {
          matchIndex[i], nextIndex[i] := 0, next;
        }
        assert nextIndex[..] == Handlers.ChangeState(old(Value()), to).nextIndex;
        assert matchIndex[..] == Handlers.ChangeState(old(Value()), to).matchIndex;
      }
    }

    // ---------- Elections ----------

    method StartElection() returns (ask: VoteRequest)
      requires Valid()
      modifies this, nextIndex, matchIndex, persister
      ensures Valid()
      ensures (Value(), ask) == Handlers.StartElection(old(Value()))
    {
      ChangeState(Candidate);
      currentTerm := currentTerm + 1;
      grantedVotes := 1;
      answered := {};
      votedFor := me;
      Persist();
      var last := LastLog(logs);
      ask := VoteRequest(currentTerm, me, last.index, last.term);
    }

    method RequestVote(req: VoteRequest) returns (resp: VoteResponse)
      requires Valid()
      modifies this, nextIndex, matchIndex, persister
      ensures Valid()
      ensures (Value(), resp) == HandleVoteRequest(old(Value()), req)
    {
      if req.term < currentTerm || (req.term == currentTerm && votedFor != -1 && votedFor != req.cand) {
        resp := VoteResponse(currentTerm, false);
        Persist();
        return;
      }
      if req.term > currentTerm {
        ChangeState(Follower);
        currentTerm, votedFor := req.term, -1;
      }
      if !IsLogUpToDate(logs, req.lastTerm, req.lastIndex) {
        resp := VoteResponse(currentTerm, false);
        Persist();
        return;
      }
      votedFor := req.cand;
      resp := VoteResponse(currentTerm, true);
      Persist();
    }

    /** One goroutine of StartElection, once its peer has answered. */
    method OnVoteResponse(from: nat, req: VoteRequest, resp: VoteResponse)
      requires Valid()
      modifies this, nextIndex, matchIndex, persister
      ensures Valid()
      ensures Value() == HandleVoteResponse(old(Value()), from, req, resp)
    {
      if currentTerm == req.term && role == Candidate {
        answered := answered + {from};
        if resp.granted {
          grantedVotes := grantedVotes + 1;
          if grantedVotes > peers / 2 {
            ChangeState(Leader);
          }
        } else if resp.term > currentTerm {
          ChangeState(Follower);
          currentTerm, votedFor := resp.term, -1;
          Persist();
        }
      }
    }

    // ---------- Replication ----------

    method Start(cmd: Command) returns (index: int, term: int, isLeader: bool)
      requires Valid()
      modifies this`logs, nextIndex, matchIndex
      ensures Valid() && Value() == Handlers.Start(old(Value()), cmd)
      ensures isLeader <==> role == Leader
      ensures isLeader ==> index == LastLog(logs).index && term == currentTerm && LastLog(logs).command == cmd
      ensures !isLeader ==> index == -1 && term == -1
    {
      if role != Leader {
        return -1, -1, false;
      }
      var last := LastLog(logs);
      var entry := Entry(last.index + 1, currentTerm, cmd);
      logs := logs + [entry];
      matchIndex[me] := entry.index;
      nextIndex[me] := entry.index + 1;
      return entry.index, currentTerm, true;
    }

    method ReplicateOneRound(peer: nat) returns (round: Round)
      requires Valid() && peer < peers
      requires role == Leader ==> nextIndex[peer] <= LastLog(logs).index + 1
      ensures round == Handlers.ReplicateOneRound(Value(), peer)
    {
      if role != Leader {
        return Silent;
      }
      var prev := nextIndex[peer] - 1;
      var first := FirstIndex(logs);
      if prev < first {
        var data := persister.ReadSnapshot();
        round := Snap(SnapRequest(currentTerm, me, first, logs[0].term, data));
      } else {
        var entries := logs[prev + 1 - first..];
        round := Entries(AppendRequest(currentTerm, me, prev, logs[prev - first].term, entries, commitIndex));
      }
    }

    method AdvanceCommitIndexForFollower(leaderCommit: nat)
      requires Valid()
      modifies this`commitIndex
      ensures Valid() && Value() == FollowerCommit(old(Value()), leaderCommit)
    {
      var newCommit := Min(leaderCommit, LastLog(logs).index);
      if newCommit > commitIndex {
        commitIndex := newCommit;
      }
    }

    /** The scan that looks for the first index of the conflicting term's run. */
    method FindConflict(prev: nat) returns (index: int)
      requires Valid() && InLog(logs, prev)
      ensures index == ScanBack(logs, prev - 1, TermAt(logs, prev))
    {
      var first := FirstIndex(logs);
      var term := logs[prev - first].term;
      index := prev - 1;
      while index >= first && logs[index - first].term == term
        invariant first - 1 <= index <= prev - 1
        invariant ScanBack(logs, prev - 1, term) == ScanBack(logs, index, term)
      {
        index := index - 1;
      }
    }

    /** The loop that keeps what matches and takes over the rest. */
    method SpliceEntries(prev: nat, entries: seq<Entry>)
      requires Valid() && InLog(logs, prev)
      requires forall k :: 0 <= k < |entries| ==> entries[k].index == prev + 1 + k
      modifies this`logs
      ensures Valid() && logs == Splice(old(logs), entries) && FirstIndex(logs) == FirstIndex(old(logs))
    {
      var first := FirstIndex(logs);
      var i := 0;
      assert entries[0..] == entries;
      while i < |entries|
        invariant 0 <= i <= |entries| && logs == old(logs)
        invariant prev + i < first + |logs|
        invariant Splice(old(logs), entries) == Splice(old(logs), entries[i..])
      {
        var entry := entries[i];
        assert entries[i..][0] == entry && entries[i..][1..] == entries[i + 1..];
        if entry.index - first >= |logs| || logs[entry.index - first].term != entry.term {
          logs := logs[..entry.index - first] + entries[i..];
          return;
        }
        i := i + 1;
      }
    }

    method AppendEntries(req: AppendRequest) returns (resp: AppendResponse)
      requires Valid()
      requires forall k :: 0 <= k < |req.entries| ==> req.entries[k].index == req.prevIndex + 1 + k
      modifies this, nextIndex, matchIndex, persister
      ensures Valid()
      ensures (Value(), resp) == HandleAppend(old(Value()), req)
    {
      hide Splice, ScanBack, UpToDate, MedianOf;
      if req.term < currentTerm {
        resp := AppendResponse(currentTerm, false, 0, 0);
        Persist();
        return;
      }
      if req.term > currentTerm {
        currentTerm, votedFor := req.term, -1;
      }
      ChangeState(Follower);
      if req.prevIndex < FirstIndex(logs) {
        resp := AppendResponse(currentTerm, false, 0, 0);
        Persist();
        return;
      }
      if !MatchLog(logs, req.prevTerm, req.prevIndex) {
        var last := LastLog(logs).index;
        if last < req.prevIndex {
          resp := AppendResponse(currentTerm, false, last + 1, -1);
        } else {
          var index := FindConflict(req.prevIndex);
          resp := AppendResponse(currentTerm, false, index, logs[req.prevIndex - FirstIndex(logs)].term);
        }
        Persist();
        return;
      }
      SpliceEntries(req.prevIndex, req.entries);
      AdvanceCommitIndexForFollower(req.leaderCommit);
      resp := AppendResponse(currentTerm, true, 0, 0);
      Persist();
    }

    method AdvanceCommitIndexForLeader()
      requires Valid()
      modifies this`commitIndex
      ensures Valid() && Value() == LeaderCommit(old(Value()))
    {
      var n := matchIndex.Length;
      var srt := new nat[n];
      for i := 0 to n
        modifies srt
        invariant srt[..i] == matchIndex[..i]
      {
        srt[i] := matchIndex[i];
      }
      assert srt[..] == matchIndex[..];
      SortInts(srt);
      var newCommit := srt[n - (n / 2 + 1)];
      assert newCommit == MedianOf(matchIndex[..]);
      if newCommit > commitIndex {
        if MatchLog(logs, currentTerm, newCommit) {
          commitIndex := newCommit;
        }
      }
    }

    method HandleAppendEntriesResponse(peer: nat, req: AppendRequest, resp: AppendResponse)
      requires Valid() && peer < peers && req.prevIndex >= 0
      requires role == Leader && currentTerm == req.term ==> req.prevIndex <= LastLog(logs).index
      modifies this, nextIndex, matchIndex, persister
      ensures Valid()
      ensures Value() == HandleAppendResponse(old(Value()), peer, req, resp)
    {
      if role == Leader && currentTerm == req.term {
        if resp.success {
          matchIndex[peer] := req.prevIndex + |req.entries|;
          nextIndex[peer] := matchIndex[peer] + 1;
          AdvanceCommitIndexForLeader();
        } else if resp.term > currentTerm {
          ChangeState(Follower);
          currentTerm, votedFor := resp.term, -1;
          Persist();
        } else if resp.term == currentTerm {
          nextIndex[peer] := resp.conflictIndex;
          if resp.conflictTerm != -1 {
            var first := FirstIndex(logs);
            var i := req.prevIndex;
            while i >= first && logs[i - first].term != resp.conflictTerm
              invariant first - 1 <= i <= req.prevIndex || i == req.prevIndex
              invariant FindTerm(logs, req.prevIndex, resp.conflictTerm) == FindTerm(logs, i, resp.conflictTerm)
            {
              i := i - 1;
            }
            if i >= first {
              nextIndex[peer] := i + 1;
            }
          }
        }
      }
    }

    // ---------- Snapshots ----------

    method InstallSnapshot(req: SnapRequest) returns (resp: SnapResponse)
      requires Valid()
      modifies this, nextIndex, matchIndex, persister
      ensures Valid()
      ensures (Value(), resp) == HandleSnap(old(Value()), req)
    {
      resp := SnapResponse(currentTerm);
      if req.term < currentTerm {
        return;
      }
      if req.term > currentTerm {
        currentTerm, votedFor := req.term, -1;
        Persist();
      }
      ChangeState(Follower);
      if req.lastIndex <= commitIndex {
        return;
      }
      pending := pending + {SnapshotMsg(req.lastTerm, req.lastIndex, req.data)};
    }

    method CondInstallSnapshot(s: SnapshotMsg) returns (installed: bool)
      requires Valid() && (s.index > commitIndex ==> s.index >= FirstIndex(logs))
      modifies this, persister
      ensures Valid()
      ensures (Value(), installed) == Handlers.CondInstallSnapshot(old(Value()), s)
    {
      if s.index <= commitIndex {
        return false;
      }
      if s.index > LastLog(logs).index {
        logs := [Placeholder];
      } else {
        logs := logs[s.index - FirstIndex(logs)..];
        logs := [logs[0].(command := Nil)] + logs[1..];
      }
      logs := [logs[0].(term := s.term, index := s.index)] + logs[1..];
      assert logs == InstalledLog(old(logs), s.term, s.index);
      lastApplied, commitIndex := s.index, s.index;
      persister.SaveStateAndSnapshot(Stable(currentTerm, votedFor, logs), s.data);
      return true;
    }

    method Snapshot(index: nat, data: seq<Command>)
      requires Valid() && index <= LastLog(logs).index
      modifies this`logs, persister
      ensures Valid()
      ensures Value() == Handlers.Snapshot(old(Value()), index, data)
    {
      var first := FirstIndex(logs);
      if index <= first {
        return;
      }
      logs := logs[index - first..];
      logs := [logs[0].(command := Nil)] + logs[1..];
      persister.SaveStateAndSnapshot(Stable(currentTerm, votedFor, logs), data);
    }

    method HandleInstallSnapshotResponse(peer: nat, req: SnapRequest, resp: SnapResponse)
      requires Valid() && peer < peers
      modifies this, nextIndex, matchIndex, persister
      ensures Valid()
      ensures Value() == HandleSnapResponse(old(Value()), peer, req, resp)
    {
      if role == Leader && currentTerm == req.term {
        if resp.term > currentTerm {
          ChangeState(Follower);
          currentTerm, votedFor := resp.term, -1;
          Persist();
        } else {
          matchIndex[peer] := req.lastIndex;
          nextIndex[peer] := req.lastIndex + 1;
        }
      }
    }

    // ---------- The applier ----------

    /** First critical section of one applier round: what to hand to the service. */
    method TakeBatch() returns (entries: seq<Entry>, upTo: nat)
      requires Valid() && FirstIndex(logs) <= lastApplied < commitIndex <= LastLog(logs).index
      ensures upTo == commitIndex && |entries| == commitIndex - lastApplied
      ensures forall k :: 0 <= k < |entries| ==>
                entries[k].index == lastApplied + 1 + k && entries[k] == logs[entries[k].index - FirstIndex(logs)]
    {
      var first := FirstIndex(logs);
      upTo := commitIndex;
      entries := logs[lastApplied + 1 - first..commitIndex + 1 - first];
    }

    /** Second critical section, after the batch has been delivered. */
    method EndBatch(upTo: nat)
      requires Valid()
      modifies this`lastApplied
      ensures Valid() && Value() == Applied(old(Value()), upTo)
    {
      lastApplied := Max(lastApplied, upTo);
    }
  }
}
