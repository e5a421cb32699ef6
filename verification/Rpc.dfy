/** The messages of lab2/lab2C+D/rpc.go. */
module Rpc {
  import opened Types

  datatype VoteRequest = VoteRequest(term: nat, cand: nat, lastIndex: nat, lastTerm: nat)
  datatype VoteResponse = VoteResponse(term: nat, granted: bool)

  datatype AppendRequest = AppendRequest(
    term: nat,
    leader: nat,
    prevIndex: int,
    prevTerm: nat,
    entries: seq<Entry>,
    leaderCommit: nat
  )
  datatype AppendResponse = AppendResponse(term: nat, success: bool, conflictIndex: int, conflictTerm: int)

  /** `data` is the service state at `lastIndex`, represented by the commands that led to it. */
  datatype SnapRequest = SnapRequest(term: nat, leader: nat, lastIndex: nat, lastTerm: nat, data: seq<Command>)
  datatype SnapResponse = SnapResponse(term: nat)

  /** A snapshot on its way to the service through the apply channel. */
  datatype SnapshotMsg = SnapshotMsg(term: nat, index: nat, data: seq<Command>)
}
