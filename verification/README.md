# Raft, a key-value service and MapReduce, modelled and proved in Dafny

The repository holds Go solutions to three distributed-systems labs: a Raft library with log
compaction (`lab2`), a replicated key-value service on top of it (`lab3`), and a MapReduce
coordinator and worker (`lab1`). This project models the parts whose correctness is hard to see
and proves what the code is meant to guarantee, over every run.

## The pieces

**Raft.** `Handlers` says what each critical section of `raft.go` and `raftwork.go` does to one
server, as functions on its whole state; `RaftPeer` has the same handlers as a class that updates
its fields, slices and stable storage in place, each method proved to compute the function.
`Cluster` is N such servers and a network that may lose, delay, reorder and repeat messages.
`LogStore` is the compacted log of `Entry.go` and proves that it stands for a full log.

The safety proof has two levels. `Replication` is the protocol on full logs, in which installing
a snapshot overwrites a prefix and keeps the old tail unchecked, as the code does; its invariant
is proved step by step in `ReplicationSteps`. `Refinement` relates every reachable cluster to a
state of that protocol and `RefinementSteps` shows that each cluster step is one protocol move or
none (a crash may first take note of what others hold). `Safety` reads the theorems off.

What needs no assumption about crashes is proved without that relation, for every run: `Election`
has Election Safety, `Bounds` everything a leader slices and searches with and its append-only log,
`Entries` that index and term name an entry, `Acknowledged` what stands behind a commit, and
`Matching` Log Matching for runs without snapshots. `Duties` says of every reachable state what each
step must do, in terms of terms, votes, indices and entries and not of the handlers: when a vote is
given, what a leader commits, when a request or snapshot is taken. `Progress` puts exchanges together
until what `Start` appended is committed. `Lockstep` builds concrete runs out of elections
and exchanges, and `Scenarios` uses them.

**Crashes.** Term and vote are stored before a lock is released, so Election Safety is proved for
any crash at any moment. `Start` appends to the log without storing it, although
`lab2/lab2CD.md:2` asks for every change to be stored. A crash therefore costs a leader the entries
it appended last. The theorems about what is committed allow every crash that forgets nothing *committed*, and also one
that does if the other servers that hold it, in the same term, are at least half (`Cluster.Durable`);
such runs are called durable. `Durability` proves that `Start` is the only step that lets storage
fall behind. `Loss` shows the guard to be exact where it matters: after the first leader of a fresh
cluster of n servers has committed an entry with n / 2 helpers, its crash is durable if and only if
n is even; for even n the entry is never lost, and for every odd n there is a run that commits
another command at its index. `Scenarios.CommitPastLog` is a run with such a crash after which a
follower's commit index lies past its log.

**Snapshots.** A snapshot's bytes are represented by the commands that produced the service
state; `Replica` relates this to the bytes the service really encodes, the map and the duplicate
table.

**The apply path.** `Pipeline` is the state machine of one server's applier goroutine, the
goroutines that hand received snapshots to the service, the service's consumer loop and its calls
back into Raft, with the rest of Raft as an environment. `OneLog` proves that a server of the
cluster is such an environment: one committed log exists for the whole run, every server follows
it, and no other step of Raft touches the committed part.

**The whole service.** `Fleet` puts a cluster, the apply path of each server and its key map and
duplicate table into one state machine, in which snapshots carry the bytes their sender stored, and
proves that servers that have applied equally much hold the same map and table.

**The service.** `KV` gives the machine (key map and per-client table) as a fold over the log and
proves what the table lets through. `KVServer` has the map, the server and the clerk as classes.
`Replica` puts the machine behind `Pipeline` and proves that replicas agree. `Answers` is about
whose answer a waiting client is handed.

**MapReduce.** `MapReduce` gives the sequential meaning of a job, the partition by hash, and the
workers' loops. `Coordinator` has the scheduler as a class and its progress measure.
`MapReduceRun` is the whole system with dying, hanging and repeated workers.

## Where the code and the text differ

- `lab2/lab2CD.md:2` wants the log stored on every change; `Start` does not store it. The code is
  modelled (see Crashes above).
- `lab2/README.md:41` bounds the follower's commit index by the last new entry; the code bounds it
  by the follower's own last entry. `Safety.FollowerCommitSound` shows why this is sound here.
- `CondInstallSnapshot` keeps the tail after the snapshot index without looking at its terms.
  `Safety.InstallMatchesIff` says exactly when the log is then still one of leaders' entries,
  `Scenarios.StaleTailReached` is a run in which it is not, and the cluster theorems hold all the
  same.
- When a conflicting term is not found, the leader goes to the index *before* that term's run on
  the follower, not to its first index. `Backup.RejectionMoves` shows that this overshoots by at
  most one entry and still moves down.
- A follower that has compacted past the probe answers with empty conflict fields, which send an
  uncompacted leader to index 1 again. `Backup.RejectionLands` says exactly when a rejection sends
  the leader below such a follower's log, `Backup.BackupEndsIff` that exchanges succeed exactly when
  the search never gets there, and `Scenarios.StallReached` is a run after which none ever succeeds.
- `Command` drops the term that `Start` returns and waits at the index alone. `Answers.AnswerIsOwnIff`
  says that the entry found there is the client's own exactly when it has that term, and
  `Answers.WrongWaiter` is a run in which the client is answered with another's command.

## Model

| member | source | states |
|---|---|---|
| Safety.StateMachineSafety | lab2/lab2C+D/raft.go:180-280 | Over durable runs, if an index counts as committed for one server at one moment and for another at the same or a later one, both hold the same entry there. |
| Safety.ServiceAgreement | lab2/lab2C+D/raft.go:122-176 | Over durable runs, across compaction and snapshots: stored snapshot plus committed tail give any two servers, at any two moments and up to any two committed indices, as many commands as the index says, the shorter a prefix of the longer. |
| Safety.LeaderCompleteness | lab2/lab2C+D/raftwork.go:145-164 | Over durable runs, what a server has committed in term T is in the log of every leader of term T or later seen afterwards. |
| Safety.LeaderCompletenessEarlier | lab2/lab2C+D/raft.go:185-206 | And, over durable runs, it is in the log of a later term's leader seen even before that server learned of the commit. |
| Safety.LogMatching | lab2/lab2C+D/raft.go:236-274 | Over durable runs, snapshots and all: for two logs that are not compacted, at any two moments, the same term at an index means the same entries up to it, and terms never decrease. |
| Matching.LogMatching | lab2/lab2C+D/raft.go:236-274 | In runs without snapshots the same term at an index means the same entries up to it, and terms never decrease along a log, whatever any crash loses. |
| Entries.OneEntry | lab2/lab2C+D/raft.go:365-380 | In every run, with any crash, compaction and install: two logs, of any servers at any two moments, that have the same term at an index past their placeholders have the same entry there. |
| Entries.FollowerHolds | lab2/lab2C+D/raft.go:264-274 | In every run, a follower that answers with success has every entry of the request, although the splice compares terms only. |
| Bounds.LeaderAppendOnly | lab2/lab2B/Entry.go:59-67 | In every run, whatever any crash loses and whatever is compacted or installed, a leader's log at a later moment of its term starts and ends no earlier and has the same entries; without compaction between, it extends the earlier one. |
| Matching.StepBook | lab2/lab2C+D/raft.go:180-280 | Every step but a snapshot's keeps each log made of leaders' entries with all before them, under any crash. |
| Bounds.IndicesLegal | lab2/lab2C+D/raftwork.go:60-95 | In every reachable state, whatever any crash lost, the log is contiguous and starts at or below the commit index, and a leader has 0 <= nextIndex <= last + 1 and matchIndex <= last for every peer. |
| Bounds.StepOk | lab2/lab2C+D/raftwork.go:60-180 | Every step of any run keeps logs, requests, snapshots, replies and a leader's indices in bounds; no term is stood for or led twice, and a leader that leads on keeps its log. |
| Safety.CommitInLog | lab2/lab2C+D/raftwork.go:134-164 | In durable runs the log covers the commit index. |
| Scenarios.CommitPastLog | lab2/lab2C+D/raft.go:264-279 | A run of three servers with one crash, not durable, after which a follower's commit index is 2 and its last index 1. |
| Bounds.RepliesLegal | lab2/lab2C+D/raftwork.go:97-131 | In every run, a reply of the leader's term, however late, is to its own request and names indices inside its log, so the conflict search never leaves the log. |
| Bounds.RequestsCarrySuffix | lab2/lab2C+D/rpc.go:68-80 | In every run, each append request was at some moment all that its sender, leading the request's term, had after the probed index; it is numbered from there on, and while its sender leads that term, its log still has every entry of it that is not compacted. |
| Safety.RequestsCoverCommit | lab2/lab2C+D/rpc.go:68-80 | In durable runs the commit index in a request is within what the request covers. |
| Safety.FollowerCommitSound | lab2/lab2C+D/raftwork.go:134-142 | Over durable runs, after a successful request the follower holds every entry sent, and its commit index is the larger of its old one and the leader's, which the request covers, although the code bounds it only by the own last index. |
| Safety.FollowerMatchesLeader | lab2/lab2C+D/raft.go:264-279 | Over durable runs, it then equals the still leading sender's log at every index the request covers or the new commit index reaches, earlier ones included. |
| Safety.RunMatched | lab2/lab2C+D/raft.go:122-322 | Every state a durable run reaches is matched by a state that the full-log protocol reaches move by move, in which all its invariants hold. |
| RefinementSteps.MatchStep | lab2/lab2C+D/raftwork.go:60-180 | Each cluster step is one allowed move of the full-log protocol or none, a crash perhaps preceded by confirmations, and keeps the relation and every invariant. |
| RefinementSteps.LagStep | lab2/lab2C+D/raft.go:94-96 | Storage is always a prefix of the log, and only a current leader's log runs past it, with entries of its own term. |
| ReplicationSteps.MoveKeeps | lab2/README.md:33-84 | Every allowed move of the protocol keeps its invariant and everything recorded so far. |
| ReplicationSteps.CrashKeeps | lab2/lab2C+D/raft.go:99-118 | A crash that loses a leader's last entries keeps the invariant if each committed one among them stays with half of the servers, the leader not counted. |
| Replication.LeaderCompleteness | lab2/README.md:84 | On full logs, a leader of any later term holds everything committed before. |
| Replication.CommitsAgree | lab2/README.md:84 | All commits of the protocol lie on one line: two of them agree as far as both reach. |
| Replication.CommittedNotBlocked | lab2/README.md:84 | An entry acknowledged by a majority can never be shut out by a majority of servers that moved on without it. |
| ReplicationSteps.WinnerCarries | lab2/lab2B/Entry.go:39-42 | The up-to-date check on votes makes a new leader hold every older entry that is, or may still be, committed. |
| ReplicationSteps.InstallKeepsAck | lab2/lab2C+D/raft.go:122-155 | Installing a snapshot over a log, unchecked tail and all, loses no acknowledged entry that can still be committed. |
| Safety.InstallMatchesIff | lab2/lab2C+D/raft.go:122-155 | After a reachable install the log is at every index what that entry's leader had up to there if and only if no tail is left or the log had the snapshot's term at its index. |
| Scenarios.StaleTailReached | lab2/lab2C+D/raft.go:139-146 | A run of three servers without a crash that reaches an install after which terms decrease along the log. |
| ReplicationSteps.InstallTail | lab2/lab2C+D/raft.go:139-146 | Every entry of an unchecked tail still comes from its term's leader, but from one whose log differs before the tail. |
| Election.ElectionSafety | lab2/lab2C+D/raft.go:476-515 | At any two moments of any run, with crashes and restarts anywhere, two leaders of one term are the same server. |
| Election.RunOk | lab2/lab2C+D/raft.go:94-118 | In every reachable state, whatever crashed, term and vote on stable storage are the ones in memory, recorded votes bind their voters, and a candidate's counter is covered by distinct voters. |
| Election.VoteCounted | lab2/lab2C+D/raft.go:486-513 | Counting one reply per peer keeps the counter at most the number of real votes, so passing half means a majority voted. |
| Acknowledged.CommitsAreAcknowledged | lab2/lab2C+D/raftwork.go:97-164 | In every run, whatever any crash loses: whenever a reply makes a leader move its commit index to i, a majority counting the leader has replied with success in its term to a request reaching i; the match index a snapshot reply sets without evidence never helps. |
| Acknowledged.SnapshotsWithinCommit | lab2/lab2C+D/rpc.go:116-125 | In every run, whatever any crash loses, a snapshot request covers nothing that its term's leader has not compacted, so nothing past its commit index. |
| Durability.StoredIsPrefix | lab2/lab2C+D/persister.go:43-68 | In every run with any crashes the stored log is a prefix of the log in memory. |
| Durability.OnlyStartLags | lab2/lab2C+D/raft.go:365-380 | A step leaves a stored log that was current behind if and only if it is a Start that appends. |
| Loss.LostCommit | lab2/lab2C+D/raft.go:365-380 | For every odd n from 3 on, a run of n servers with one crash of a leader that had committed an unstored entry with n / 2 helpers, in which that index is committed again with another command. |
| Loss.BareCommitDurableIff | lab2/lab2C+D/raft.go:365-380 | That crash is durable if and only if n is even. |
| Loss.KeptCommit | lab2/lab2C+D/raft.go:365-380 | For even n, whatever follows it, short of another crash, that command is the first of the service state of every server that commits index 1, compacted or not. |
| Duties.SuccessCounted | lab2/lab2C+D/raftwork.go:97-164 | After a success handled in its term a leader takes the peer to match through what the request covered; every index of its own term that a majority then matches is committed, and a commit index that rose is such an index. |
| Duties.VoteAnswered | lab2/lab2C+D/raft.go:180-207 | In any reachable state a vote is given if and only if the candidate's term is not behind, its log is at least as up to date, and no vote for anyone else in that term was ever cast; the term is the larger one, the vote is recorded, the log untouched. |
| Duties.Stands | lab2/lab2C+D/raft.go:476-484 | Standing raises the term, casts and stores the own vote, and asks with the last index and term. |
| Duties.VoteTaken | lab2/lab2C+D/raft.go:486-513 | A granted vote counts once and elects exactly when more than half are counted, with every peer then tried after the last entry; a later term ends the candidacy, and late answers change nothing. |
| Duties.SendsRest | lab2/lab2C+D/raftwork.go:60-95 | To a peer whose next index is past its placeholder a leader sends every entry from there on, with the term before them and its commit index. |
| Duties.SendsSnapshot | lab2/lab2C+D/raftwork.go:66-81 | To any other it sends the stored snapshot, and only a leader sends. |
| Duties.RequestAnswered | lab2/lab2C+D/raft.go:210-280 | A request is taken if and only if its term is not behind and the log has the probed term at the probed index; everything up to there stays, everything after it too if all the request's terms are there, otherwise the log ends with the request, and the commit index follows as far as the log reaches. |
| Duties.RefusalSays | lab2/lab2C+D/raft.go:230-262 | A refusal says nothing for a compacted probe, where the log ends if it is too short, and otherwise the term found there and the last index before that term's run. |
| Duties.RefusalFollowed | lab2/lab2C+D/raftwork.go:110-125 | The leader then goes on right after the last entry of that term at or below the probe, or where the follower said if there is none. |
| Duties.LaterTermStepsDown | lab2/lab2C+D/raftwork.go:106-109 | An answer with a later term makes the leader a follower of it, stored, without a vote and with its log untouched. |
| Duties.LateAnswerIgnored | lab2/lab2C+D/raftwork.go:97-98 | An answer to what was sent in another term, or after leading, changes nothing. |
| Duties.SnapshotAnswered | lab2/lab2C+D/raft.go:285-322 | A snapshot request that is not behind makes a follower, and its snapshot is passed on if and only if it covers more than is committed. |
| Duties.SnapshotCounted | lab2/lab2C+D/raftwork.go:167-180 | Its answer in the leader's term moves both of the peer's indices to what it covers, and nothing else. |
| Duties.Installed | lab2/lab2C+D/raft.go:122-155 | A snapshot is installed if and only if it covers more than is committed; the log then begins at it and keeps every later entry, and all indices and storage change together. |
| Duties.Trimmed | lab2/lab2C+D/raft.go:160-176 | A snapshot of the service is taken if and only if its index is past the placeholder; the log then begins there with every later entry, stored with the snapshot. |
| Duties.Restarted | lab2/lab2C+D/raft.go:524-562 | After a crash a server is a follower with its term, vote, stored log and snapshot, and nothing applied past the snapshot. |
| Terms.RunOk | lab2/lab2C+D/raft.go:180-280 | In every run, no log, request or snapshot is ahead of its server's or sender's term, a leader's own entries are the last of its log, and the vote a server is bound by was cast. |
| Progress.StartIsCommitted | lab2/lab2C+D/raft.go:365-380 | In any state of a durable run, if the leader and so many peers not past its term that they make a majority have compacted nothing, a run without another crash commits what Start appends at the index Start returned. |
| Progress.CommitsWithMajority | lab2/lab2C+D/raftwork.go:60-164 | A leader whose last entry is of its term commits its whole log by exchanges with any peers whose searches settle and that make a majority with it. |
| Median.MedianIsPaperRule | lab2/lab2C+D/raftwork.go:145-164 | On a log whose terms never decrease, the one test at the median succeeds exactly when some N above the commit index satisfies the paper's rule, and then the median is the largest such N. |
| Median.MedianRule | lab2/lab2C+D/raftwork.go:151-152 | The element at n-(n/2+1) of the sorted copy reaches x exactly when a strict majority of match indices do. |
| Median.MedianMajority | lab2/lab2C+D/raftwork.go:151-152 | The servers whose match index reaches the median are a majority. |
| Median.SortKeeps | lab2/lab2C+D/raftwork.go:146-151 | The sorted copy is ascending, a permutation, and keeps every count. |
| LogStore.CompactLookup | lab2/lab2B/Entry.go:19-35 | From the snapshot index on, a compacted log gives the same terms, entries, last index and last term as the full log. |
| LogStore.TrimCompact | lab2/lab2C+D/raft.go:160-176 | Snapshot trims a compacted log to what compacting the full log there would give. |
| LogStore.SpliceCompact | lab2/lab2C+D/raft.go:264-274 | Once the check at the previous entry passed, the splice on the compacted log gives the compacted form of the full-log result: the follower's log if it extends the leader's, else the leader's. The placeholder stays. |
| LogStore.MatchCompact | lab2/lab2B/Entry.go:31-35 | The consistency check on the compacted log accepts exactly when the check on the full log does. |
| LogStore.CompactInstall | lab2/lab2C+D/raft.go:135-148 | Installing a snapshot over a compacted log is overwriting that prefix of the full log. |
| LogStore.InstallIsTrim | lab2/lab2C+D/raft.go:139-148 | An install inside the log is the trim that Snapshot would do there if and only if the log already has the snapshot's term at that index. |
| LogStore.ScanBack | lab2/lab2C+D/raft.go:249-259 | The follower's conflict index is the first index going down from the probe whose term differs from the conflicting one, or one before the log. |
| LogStore.FindTerm | lab2/lab2C+D/raftwork.go:116-123 | The leader's search gives the last index at or below the probe that has the conflicting term, if there is one. |
| Backup.RejectionMoves | lab2/lab2C+D/raft.go:241-260 | After a rejection inside the follower's log the leader moves strictly down, and in all three cases not below the last entry the two logs share. |
| Backup.RejectionLands | lab2/lab2C+D/raft.go:241-260 | It lands at or below the follower's first index if and only if the leader has no entry of the conflicting term at or below the probe and that term's run starts right after the follower's placeholder. |
| Backup.SettlesWhen | lab2/lab2C+D/raftwork.go:112-124 | The search settles for every follower that has compacted nothing, and for a compacted one whose log ends at its placeholder or goes on with a term the leader has up to there. |
| Backup.SettlesInExchanges | lab2/lab2C+D/raftwork.go:60-131 | If the search settles, exactly as many exchanges on the cluster as it counts, at most max(nextIndex, 1) + 1, snapshot bounce included, leave matchIndex at the leader's last index and its log with the follower, and only the last of them is accepted. |
| Backup.NeverSettles | lab2/lab2C+D/raftwork.go:60-131 | If it does not, no number of exchanges gets a request accepted or changes the follower's log. |
| Backup.BackupEndsIff | lab2/lab2C+D/raftwork.go:60-131 | Some exchange succeeds if and only if the search settles, which the two logs and nextIndex decide. |
| Backup.BouncedExchange | lab2/lab2C+D/raftwork.go:72-81 | At nextIndex 0 the leader sends a snapshot that covers nothing; the follower ignores it and the reply sets nextIndex to 1. |
| Scenarios.StallReached | lab2/lab2C+D/raft.go:230-234 | A run of three servers without a crash reaches a leader and a compacted follower between which, for every number of exchanges, none succeeds and the follower's log stays as it is. |
| Backup.ReachablePair | lab2/lab2C+D/raft.go:230-262 | In durable runs, an uncompacted leader and any server not past its term that has not compacted, has committed past its placeholder, or has nothing after it, satisfy what the backup lemmas ask for. |
| RaftPeer.Raft.RequestVote | lab2/lab2C+D/raft.go:180-207 | The new state and the reply are those of the vote handler: later term adopted, stale or conflicting requests refused, outdated logs refused after adopting the term, all stored. |
| RaftPeer.Raft.OnVoteResponse | lab2/lab2C+D/raft.go:486-513 | One reply moves the counter, elects, or steps down, only in the election it belongs to. |
| RaftPeer.Raft.StartElection | lab2/lab2C+D/raft.go:476-484 | Term raised, own vote stored, and a request with the last index and term. |
| RaftPeer.Raft.ChangeState | lab2/lab2C+D/raftwork.go:32-57 | Becoming leader resets both index arrays in place; any other change touches only the role. |
| RaftPeer.Raft.Start | lab2/lab2C+D/raft.go:365-380 | A leader appends one entry of its term and moves its own indices; nothing is stored; others answer -1. |
| RaftPeer.Raft.ReplicateOneRound | lab2/lab2C+D/raftwork.go:60-95 | The message sent is the whole suffix after nextIndex - 1, or the stored snapshot when that lies before the log. |
| RaftPeer.Raft.FindConflict | lab2/lab2C+D/raft.go:249-259 | The in-place scan stops where the conflicting term's run begins. |
| RaftPeer.Raft.SpliceEntries | lab2/lab2C+D/raft.go:264-274 | The loop leaves the log that `Splice` describes, still contiguous and starting at the same placeholder. |
| RaftPeer.Raft.AppendEntries | lab2/lab2C+D/raft.go:210-280 | State and reply of the append handler in all five outcomes, stored on every path. |
| RaftPeer.Raft.AdvanceCommitIndexForFollower | lab2/lab2C+D/raftwork.go:134-142 | The commit index rises to the smaller of the leader's commit and the own last index, and never falls. |
| RaftPeer.Raft.AdvanceCommitIndexForLeader | lab2/lab2C+D/raftwork.go:145-164 | The commit index moves to the median of a sorted copy exactly if it is higher and of the current term; matchIndex is left as it was. |
| RaftPeer.Raft.HandleAppendEntriesResponse | lab2/lab2C+D/raftwork.go:97-131 | Only a leader in the request's term reacts: success moves both indices and may commit, a later term steps down, a conflict sends nextIndex back. |
| RaftPeer.Raft.InstallSnapshot | lab2/lab2C+D/raft.go:285-322 | Term adopted and stored if later; a snapshot past the commit index is queued for the service. |
| RaftPeer.Raft.CondInstallSnapshot | lab2/lab2C+D/raft.go:122-155 | A snapshot at or below the commit index is refused unchanged; otherwise log, both indices, stored state and stored snapshot move together. |
| RaftPeer.Raft.Snapshot | lab2/lab2C+D/raft.go:160-176 | The log is trimmed to the index and stored with the snapshot, unless it was already that short. |
| RaftPeer.Raft.HandleInstallSnapshotResponse | lab2/lab2C+D/raftwork.go:167-180 | A reply in the leader's own term sets both indices of the peer from the snapshot's last index, or steps the leader down. |
| RaftPeer.Raft.TakeBatch | lab2/lab2C+D/raft.go:408-412 | The applier copies exactly the entries after lastApplied through the commit index, which lie inside the log. |
| RaftPeer.Raft.EndBatch | lab2/lab2C+D/raft.go:424-430 | lastApplied rises to the batch's end unless a snapshot has carried it further. |
| RaftPeer.Raft.constructor | lab2/lab2C+D/raft.go:524-562 | A server comes back with term, vote, log and snapshot as stored, and both apply indices at the snapshot. |
| RaftPeer.SortInts | lab2/lab2C+D/raftwork.go:151 | The in-place sort leaves the sorted permutation that the median is taken from. |
| Pipeline.AppliesExactly | lab2/lab2C+D/raft.go:399-432 | In every reachable state the service holds exactly the first commands of the committed log: each once, in order, none missing, none beyond the commit index. |
| Pipeline.SliceInBounds | lab2/lab2C+D/raft.go:408-412 | Whenever the applier takes a batch its slice is within the log and is exactly the committed entries after lastApplied. |
| Pipeline.DeliveredOnce | lab3/server.go:104-138 | A delivered command is discarded exactly when the service already covers its index, also right after a restart with the counter at 0; otherwise it is the very next one, and the state just reached is cut when asked. |
| Pipeline.SnapshotTaken | lab3/server.go:142-150 | A received snapshot is taken in exactly if it covers more than is committed; the service, once it has restored it, holds it and counts on from its index. |
| Pipeline.NeverRollsBack | lab3/server.go:95-150 | Between restarts the applied commands only grow, under every interleaving of batches, snapshots and trims. |
| Pipeline.IdleMeansCurrent | lab2/lab2C+D/raft.go:403-406 | When applier and service have nothing left to do, everything committed is applied. |
| Pipeline.CutsAreSound | lab3/serverwork.go:21-27 | A snapshot the service takes covers only committed entries and equals stored snapshot plus committed log, so Raft may trim with it. |
| Pipeline.RestartResumes | lab3/server.go:172-183 | After a restart the service stands at the stored snapshot, exactly where Raft resumes applying. |
| Pipeline.StepOk | lab2/lab2C+D/raft.go:399-432 | Every step of applier, snapshot senders, consumer and environment keeps service, applier and log in step. |
| OneLog.OneCommittedLog | lab2/lab2C+D/raft.go:122-280 | Over a durable run there is one committed log that every server's committed entries, stored snapshot and received snapshots follow at every moment. |
| OneLog.RaftIsTheEnvironment | lab2/lab2C+D/raft.go:210-322 | Each Raft step beside the apply path keeps the committed part of the log, commits only entries of the one log, and queues only snapshots of it: what `Pipeline` assumes. |
| OneLog.OwnStepsAgree | lab2/lab2C+D/raft.go:122-176 | The apply path's install, trim, end of batch and restart change Raft's state as the handlers do. |
| KV.CutsDoNotMatter | lab3/serverwork.go:21-43 | Stopping at any cut points and resuming from the snapshot taken there leaves the state that replaying from empty gives. |
| KV.RunSplit | lab3/server.go:112-125 | Replaying the rest of a log from the state of its first part is replaying the whole. |
| KV.DuplicatesSuppressed | lab3/server.go:114-124 | The key map is what plain application of the log gives once every client's non-increasing repeats are removed. |
| KV.TableIsMax | lab3/serverwork.go:10-13 | A client's entry in the table is the largest id among its mutations so far, and its answer is OK. |
| KV.FreshIsNotDuplicate | lab3/serverwork.go:10-13 | The table lets a mutation through exactly when its id is larger than all earlier ones of its client. |
| KV.AtMostOnce | lab3/server.go:114-124 | No two places in a log take effect for the same client and id. |
| KV.ExactlyOnceIff | lab3/server.go:114-124 | Every mutation of a client takes effect if and only if its ids first appear in increasing order. |
| KV.ClerksGetExactlyOnce | lab3/client.go:55-68 | Clerks that move on only when their mutation is in the log have every mutation take effect, however requests are repeated and delayed. |
| KV.DuplicateAnswer | lab3/server.go:114-116 | Any mutation, suppressed or not, is answered OK, so the table's newer answer is the right one. |
| KV.ReadsAreFree | lab3/server.go:114-124 | A Get is never suppressed or recorded, changes nothing, and sees the map without repeats. |
| KV.KeyHolds | lab3/kvstatemachine.go:22-39 | After any log a key holds the value of the last effective Put of it followed by the values of the effective Appends after that, in order, and is absent exactly if no effective mutation names it. |
| KV.GetReads | lab3/kvstatemachine.go:22-27 | A Get answers OK with what the key then holds, or ErrNoKey with the empty string, and changes nothing. |
| KVServer.MemoryKV.Get | lab3/kvstatemachine.go:22-27 | The stored value, or ErrNoKey with the empty string. |
| KVServer.MemoryKV.Put | lab3/kvstatemachine.go:30-33 | The key is set and nothing else changes. |
| KVServer.MemoryKV.Append | lab3/kvstatemachine.go:36-39 | The value is appended, to the empty string if the key was absent. |
| KVServer.Server.ApplyLogToStateMachine | lab3/serverwork.go:59-71 | A Put sets the key, an Append adds at the end of what it holds, both answering OK; a Get answers from the map unchanged. |
| KVServer.Server.OnCommand | lab3/server.go:100-141 | Outdated indices change nothing; otherwise map, table, index and the waiting channel are those of the specification, the snapshot cut if the log is full is the state just reached, and sending the response never blocks. |
| KVServer.Server.OnSnapshot | lab3/server.go:142-150 | An installed snapshot replaces map, table and index together; a refused one changes nothing. |
| KVServer.Server.RestoreSnapshot | lab3/serverwork.go:30-43 | Map and table become the decoded ones; without data both stay. |
| KVServer.Server.TakeSnapshot | lab3/serverwork.go:21-27 | What is encoded is the whole map and table. |
| KVServer.Server.AnswerDuplicate | lab3/server.go:56-62 | Only an already applied mutation is answered at once, with what applying it again would answer. |
| KVServer.Server.constructor | lab3/server.go:166-189 | A server starts from the stored snapshot with its index at 0 and no channels. |
| KVServer.Server.Receive | lab3/server.go:71-81 | Whoever waits at an index takes the one response in its channel, if there is one. |
| KVServer.Server.RemoveOutdatedNotifyChan | lab3/serverwork.go:53-56 | The index's channel goes, with what is in it, and no other. |
| KVServer.Clerk.Command | lab3/client.go:55-68 | Every call of one command carries the same number, going round the servers; only OK and ErrNoKey are final, the first of them is the answer, every reply before it was lost, from a wrong leader or timed out, and only it advances the number. |
| Answers.StartStarts | lab2/lab2C+D/raft.go:365-380 | Right after Start, in every run, the server leads the term it returned and has the command at the index it returned. |
| Answers.AnswerIsOwnIff | lab3/server.go:64-81 | In every run, what any server ever has at the index that Start returned is the command given to Start if and only if it has the term that Start returned, which Command does not look at. |
| Answers.WrongWaiter | lab3/server.go:125-130 | A run of three servers without a crash in which Start returns index 2 for one command, and the same server later commits another there and passes the test for answering whoever waits. |
| Fleet.ServersAgree | lab3/server.go:95-150 | In one durable run of the whole system, any two servers at any two moments that have applied equally much hold the same key map and duplicate table, whatever they compacted, installed from each other or lost in a crash. |
| Fleet.RunInv | lab3/server.go:95-150 | At every moment of such a run each server's apply path is in order over the one committed log, mirrors its Raft state, and every snapshot on the network carries the state it stands for. |
| Fleet.Projected | lab2/lab2C+D/raft.go:399-432 | What the apply paths ask of Raft is always something it may do, so a run of the whole system is a run of the cluster. |
| Replica.ReplicasAgree | lab3/server.go:95-150 | Replicas over one committed log, given images of arriving snapshots that are right, agree whenever they have applied equally much, in any two runs. |
| Replica.MapHasNoRepeats | lab3/server.go:112-125 | In every reachable state of a replica, restarts and snapshots included, its map is plain application of its committed prefix with every client's repeats removed. |
| Replica.AnswersAgree | lab3/server.go:112-125 | Whichever replica applies an index answers it as the log before it determines. |
| Replica.CutsAreImages | lab3/serverwork.go:21-27 | The map and table a replica encodes are those of the committed prefix, as receivers of the snapshot assume. |
| Replica.RestoresAreAhead | lab3/server.go:145-149 | A snapshot the consumer restores lies ahead of all it has applied, and restoring it gives the replay of that prefix. |
| MapReduceRun.CompleteMeansSequential | lab1/coordinator.go:51-151 | Once the coordinator is complete, every key of the sequential result is in exactly one output, the one its hash selects, with the sequential value, and there is nothing else. |
| MapReduceRun.OutputsAreFinal | lab1/worker.go:104-134 | An output, once written, is right from then on, whoever rewrites it and when. |
| MapReduceRun.ReadersFindFiles | lab1/worker.go:104-120 | A reduce worker never fails to open an intermediate file. |
| MapReduceRun.Barrier | lab1/coordinator.go:51-122 | No reduce job before every map task was reported, no CompleteJob before every reduce task was, and no task whose report counted is handed out again. |
| MapReduceRun.AskIsAnswered | lab1/coordinator.go:54-122 | In any state of any run, an asking worker is told to wait if and only if every task of the phase was reported or was last handed out at most the interval ago; otherwise it gets the first that was not, also one whose worker died, and told to leave exactly once every reduce task was reported. |
| MapReduceRun.HandoutsApart | lab1/coordinator.go:88-115 | Any two hand-outs of one task in one phase are more than MaxTaskRunInterval apart. |
| MapReduceRun.StepProgress | lab1/coordinator.go:51-85 | (phases left, unfinished tasks) falls exactly on a first report and on a change of phase, and never rises. |
| MapReduceRun.StepOk | lab1/worker.go:33-53 | Every step of worker, coordinator and file system, deaths and repeats included, keeps files, tasks and workers consistent. |
| Coordinator.HeartbeatProgress | lab1/coordinator.go:54-76 | A request changes the phase exactly when every task of the phase is finished. |
| Coordinator.ReportProgress | lab1/coordinator.go:77-82 | A report lowers the measure exactly when it is the first for a task of the current phase. |
| Coordinator.WaitsOnlyForWork | lab1/coordinator.go:88-122 | A worker is told to wait exactly when every task is finished or was handed out at most MaxTaskRunInterval ago. |
| Coordinator.FirstAvailable | lab1/coordinator.go:88-115 | The task handed out is the first that is waiting or was handed out longer ago than MaxTaskRunInterval. |
| Coordinator.Scheduler.SelectTask | lab1/coordinator.go:88-122 | The scan hands out the first waiting or overdue task, stamped and fully described, answers WaitJob exactly when there is none, and reports whether all were finished. |
| Coordinator.Scheduler.OnHeartbeat | lab1/coordinator.go:54-76 | State and answer of one request, including the second scan after a change of phase; the done channel gets one token and never blocks. |
| Coordinator.Scheduler.OnReport | lab1/coordinator.go:77-82 | A report of the current phase finishes its task; any other is ignored. |
| Coordinator.Scheduler.Done | lab1/coordinator.go:177-183 | The main program passes exactly when a token is there, and then the job is complete. |
| Coordinator.Scheduler.InitMapPhase | lab1/coordinator.go:124-134 | One waiting task for each file. |
| Coordinator.Scheduler.InitReducePhase | lab1/coordinator.go:136-145 | One waiting task for each reduce number. |
| MapReduce.OutputsAreSequential | lab1/worker.go:104-134 | The output of a reduce task has exactly the sequential result's keys of its hash class, with their values. |
| MapReduce.ShuffledIsBucket | lab1/worker.go:77-83 | Partitioning file by file and collecting one bucket is partitioning everything at once. |
| MapReduce.BucketValues | lab1/worker.go:77-83 | A bucket has all the values of its keys, in file order. |
| MapReduce.BucketKeys | lab1/worker.go:77-83 | A bucket has exactly the keys whose hash selects it. |
| MapReduce.BucketInOrder | lab1/worker.go:77-83 | A bucket is made of the pairs of its hash class, each once and in the order they were emitted. |
| MapReduce.ValuesInOrder | lab1/worker.go:121-125 | The values a key is reduced over are those of its pairs, each once and in the order they were emitted. |
| MapReduce.Partition | lab1/worker.go:77-83 | The in-place loop leaves in each bucket exactly the pairs whose hash selects it, in order. |
| MapReduce.Group | lab1/worker.go:121-125 | The loop groups every value under its key, in order. |
| MapReduce.ReduceGroups | lab1/worker.go:121-130 | The output is the reduction of every key's values, in whatever order the map yields its keys. |

## Left out

- Safety.StateMachineSafety: with the other theorems of `Safety`, `OneLog` and `Fleet`, is about durable runs: a crash may forget what is not committed, and what is committed only if half of the servers, in the leader's term and with logs that reach the commit index and end in that term, still hold it. `Loss.LostCommit` shows it failing otherwise. Servers that hold the entry but have moved to a later term are not counted, so the guard is exact only for the family in `Loss`.
- Safety.LogMatching: is stated for logs that are not compacted; an install can keep a stale tail, for which it is false (`Scenarios.StaleTailReached`). What an install leaves of it in every run is `Entries.OneEntry`.
- Matching.LogMatching: leaves out runs with snapshots; for them `Safety.LogMatching` has durable runs, and `Entries.OneEntry` every run but without the entries before.
- Backup.SettlesInExchanges: with the other lemmas on exchanges, takes an uncompacted leader and exchanges with one follower in lockstep; a compacted leader sends its snapshot to a follower behind it, which installs it at its own pace.
- Backup.ReachablePair: leaves out a follower that has compacted through its commit index and has entries after it, because they may be a stale tail.
- Progress.StartIsCommitted: says that a run gets there, not that timers bring it about. It asks for logs that are not compacted, as the exchanges do, for a durable run, because reachable pairs are proved for those, and for at least one peer, because the leader commits only on an answer.
- RaftPeer.Raft.AppendEntries: asks for requests numbered from the probed index on, as `Bounds.RequestsCarrySuffix` proves of every request sent; the source slices with the entries' own indices and would panic on others.
- RaftPeer.Raft.Snapshot: asks for an index inside the log; the source would panic on a later one.
- RaftPeer.Raft.CondInstallSnapshot: asks that an index past the commit index is not before the log; the source would panic on one, and `Bounds.IndicesLegal` rules it out.
- RaftPeer.Raft.TakeBatch: asks that there is something to apply and that it lies in the log, as the source's wait and `Pipeline.SliceInBounds` ensure.
- KVServer.Server.OnCommand: takes what Raft answers (leadership and term, stored size) as arguments and hands out the snapshot instead of calling Raft; `Fleet` has the calls.
- KVServer.Server.OnSnapshot: takes Raft's answer as an argument, and asks that an installed snapshot is not behind the server, as `Replica.RestoresAreAhead` proves.
- KVServer.Server.TakeSnapshot: encodes; the call of Raft's Snapshot with it is in `Fleet`.
- KV.ClerksGetExactlyOnce: assumes that a clerk moves on only once its mutation is in the log. That fails of the code when an index is used again in a later term (`Answers.WrongWaiter`, with the exact condition in `Answers.AnswerIsOwnIff`); linearizability and at-least-once are not claimed.
- KVServer.Clerk.Command: takes the replies as a finite list, so a clerk that retries for ever is one that has not answered yet.
- MapReduceRun.CompleteMeansSequential: takes map and reduce functions as deterministic, inputs as unchanging and file writes as atomic and successful; the order of lines in an output file, JSON and the FNV hash (any hash will do) are not modelled.
- Termination of elections and of MapReduce runs: timers, random timeouts, heartbeats and goroutine wake-ups are nondeterministic steps, so nothing is said about when they happen.
- Vote replies are consumed at most once per peer and election, as one goroutine waits for each; all other messages may be repeated.
- One heartbeat of the coordinator is one step; its clock readings are arguments, monotone within a pass.
- Slice capacity and sharing: shrinkEntriesArray copies or not, and append may write into shared capacity; logs are values here. sort.Ints is an insertion sort.
- GetState, Kill, Make's goroutines, needReplicating, HasLogInCurrentTerm, the batching condition variables and BroadcastHeartbeat only decide when replicateOneRound runs.
- The size threshold for snapshots (needSnapshot): the service may cut after any command.
- Snapshot decoding errors, labgob, labrpc, net/rpc and JSON encodings: messages and snapshots are values, and encoding loses nothing.
- Uniqueness of client ids (nrand) is not needed for the theorems about one client's ids, but two clerks with one id would be one client.
- Integers are unbounded; Go's 64-bit overflow is not modelled.
- The earlier stages of the Raft library (lab2A, lab2B without snapshots) and the copy under lab2/lab3.
