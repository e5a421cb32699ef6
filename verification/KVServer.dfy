/**
 * The service of lab3 as objects: the key map, the server whose consumer loop applies what
 * comes out of Raft, and the client.  Each method is proved to do what `KV` says.
 */
module KVServer {
  import opened Types
  import opened KV

  datatype Option<T> = None | Some(value: T)

  class MemoryKV {
    var kv: Store

    constructor ()
      ensures kv == map[]
    {
      kv := map[];
    }

    /** A map decoded from a snapshot. */
    constructor Decoded(store: Store)
      ensures kv == store
    {
      kv := store;
    }

    method Get(key: string) returns (value: string, err: Err)
      ensures key in kv ==> err == OK && value == kv[key]
      ensures key !in kv ==> err == ErrNoKey && value == ""
    {
      if key in kv {
        return kv[key], OK;
      }
      return "", ErrNoKey;
    }

    method Put(key: string, value: string) returns (err: Err)
      modifies this
      ensures err == OK && kv == old(kv)[key := value]
    {
      kv := kv[key := value];
      err := OK;
    }

    method Append(key: string, value: string) returns (err: Err)
      modifies this
      ensures err == OK
      ensures kv == old(kv)[key := if key in old(kv) then old(kv)[key] + value else value]
    {
      if key in kv {
        kv := kv[key := kv[key] + value];
      } else {
        assert "" + value == value;
        kv := kv[key := "" + value];
      }
      err := OK;
    }
  }

  class Server {
    var lastApplied: nat
    var stateMachine: MemoryKV
    var lastOperations: map<int, Operation>
    /** Channels with room for one response, by log index. */
    var notifyChans: map<nat, seq<Response>>

    /** A response waiting in a channel belongs to an index that has been applied. */
    predicate Valid()
      reads this
    {
      forall i :: i in notifyChans ==> |notifyChans[i]| <= 1 && (notifyChans[i] != [] ==> i <= lastApplied)
    }

    function Value(): Machine
      reads this, stateMachine
    {
      Machine(stateMachine.kv, lastOperations)
    }

    /** StartKVServer: whatever snapshot is on stable storage is restored, but lastApplied starts at 0. */
    constructor (snapshot: Option<Machine>)
      ensures Valid() && fresh(stateMachine) && lastApplied == 0 && notifyChans == map[]
      ensures Value() == if snapshot.Some? then snapshot.value else Empty
    {
      lastApplied, lastOperations, notifyChans := 0, map[], map[];
      stateMachine := new MemoryKV();
      new;
      RestoreSnapshot(snapshot);
    }

    method IsDuplicateRequest(clientId: int, requestId: int) returns (dup: bool)
      ensures dup == IsDuplicate(Value(), clientId, requestId)
    {
      dup := clientId in lastOperations && requestId <= lastOperations[clientId].maxApplied;
    }

    method ApplyLogToStateMachine(c: Command) returns (response: Response)
      requires c.Request?
      modifies stateMachine
      ensures c.work == PutWork ==> stateMachine.kv == old(stateMachine.kv)[c.key := c.value]
      ensures c.work == AppendWork ==>
                stateMachine.kv == old(stateMachine.kv)[c.key := (if c.key in old(stateMachine.kv) then old(stateMachine.kv)[c.key] else "") + c.value]
      ensures c.work == GetWork ==> stateMachine.kv == old(stateMachine.kv)
      ensures response == if c.work != GetWork then Response(OK, "")
                          else if c.key in old(stateMachine.kv) then Response(OK, old(stateMachine.kv)[c.key])
                          else Response(ErrNoKey, "")
    {
      var value, err := "", OK;
      assert "" + c.value == c.value;
      match c.work {
        case PutWork => err := stateMachine.Put(c.key, c.value);
        case AppendWork => err := stateMachine.Append(c.key, c.value);
        case GetWork => value, err := stateMachine.Get(c.key);
      }
      response := Response(err, value);
    }

    /**
     * The consumer's command branch.  `notify` says that Raft leads in the entry's term, `full`
     * that its stored state has grown too large; `cut` is what Snapshot is then handed for index.
     */
    method OnCommand(index: nat, c: Command, notify: bool, full: bool) returns (applied: bool, cut: Option<Machine>)
      requires Valid() && c.Request?
      modifies this, stateMachine
      ensures Valid() && stateMachine == old(stateMachine)
      ensures applied == (index > old(lastApplied))
      ensures !applied ==> Value() == old(Value()) && lastApplied == old(lastApplied) && notifyChans == old(notifyChans)
      ensures applied ==> Value() == Apply(old(Value()), c).0 && lastApplied == index
      ensures cut == if applied && full then Some(Apply(old(Value()), c).0) else None
      ensures applied ==> notifyChans == if notify then old(notifyChans)[index := [Apply(old(Value()), c).1]] else old(notifyChans)
    {
      hide Mutate, Lookup;
      if index <= lastApplied {
        return false, None;
      }
      lastApplied := index;
      var response;
      var dup := IsDuplicateRequest(c.clientId, c.commandId);
      if c.work != GetWork && dup {
        response := lastOperations[c.clientId].last;
      } else {
        ghost var store := stateMachine.kv;
        response := ApplyLogToStateMachine(c);
        AppliedAs(store, c, stateMachine.kv, response);
        if c.work != GetWork {
          lastOperations := lastOperations[c.clientId := Operation(c.commandId, response)];
        }
      }
      assert Value() == Apply(old(Value()), c).0 && response == Apply(old(Value()), c).1;
      assert index !in notifyChans || notifyChans[index] == [];
      if notify {
        GetNotifyChan(index);
        Send(index, response);
      }
      cut := None;
      if full {
        var image := TakeSnapshot();
        cut := Some(image);
      }
      return true, cut;
    }

    /** Sending would wait for ever with the lock held if the channel were full. */
    method Send(index: nat, response: Response)
      requires index in notifyChans && notifyChans[index] == []
      modifies this`notifyChans
      ensures notifyChans == old(notifyChans)[index := [response]]
    {
      assert [] + [response] == [response];
      notifyChans := notifyChans[index := notifyChans[index] + [response]];
    }

    method GetNotifyChan(index: nat)
      modifies this`notifyChans
      ensures notifyChans == if index in old(notifyChans) then old(notifyChans) else old(notifyChans)[index := []]
    {
      if index !in notifyChans {
        notifyChans := notifyChans[index := []];
      }
    }

    method RemoveOutdatedNotifyChan(index: nat)
      requires Valid()
      modifies this`notifyChans
      ensures Valid() && notifyChans == old(notifyChans) - {index}
    {
      notifyChans := notifyChans - {index};
    }

    /** The waiting client goroutine receives, if there is anything to receive. */
    method Receive(index: nat) returns (response: Option<Response>)
      requires Valid()
      modifies this`notifyChans
      ensures Valid()
      ensures response == if index in old(notifyChans) && old(notifyChans)[index] != [] then Some(old(notifyChans)[index][0]) else None
      ensures notifyChans == if response.Some? then old(notifyChans)[index := []] else old(notifyChans)
    {
      if index in notifyChans && notifyChans[index] != [] {
        response := Some(notifyChans[index][0]);
        notifyChans := notifyChans[index := []];
      } else {
        response := None;
      }
    }

    /** What Snapshot is handed; the encoding loses nothing. */
    method TakeSnapshot() returns (image: Machine)
      ensures image == Value()
    {
      image := Machine(stateMachine.kv, lastOperations);
    }

    method RestoreSnapshot(snapshot: Option<Machine>)
      modifies this`stateMachine, this`lastOperations
      ensures Value() == if snapshot.Some? then snapshot.value else old(Value())
      ensures stateMachine == old(stateMachine) || fresh(stateMachine)
    {
      if snapshot.None? {
        return;
      }
      stateMachine := new MemoryKV.Decoded(snapshot.value.store);
      lastOperations := snapshot.value.ops;
    }

    /** The consumer's snapshot branch, after Raft answered whether it installed the snapshot. */
    method OnSnapshot(installed: bool, index: nat, image: Machine)
      requires Valid() && (installed ==> index >= lastApplied)
      modifies this
      ensures Valid() && notifyChans == old(notifyChans)
      ensures Value() == if installed then image else old(Value())
      ensures lastApplied == if installed then index else old(lastApplied)
      ensures stateMachine == old(stateMachine) || fresh(stateMachine)
    {
      if installed {
        RestoreSnapshot(Some(image));
        lastApplied := index;
      }
    }

    /** The part of Command before Start: a mutation already applied is answered from the table. */
    method AnswerDuplicate(c: Command) returns (answer: Option<Response>)
      requires c.Request?
      ensures answer.Some? <==> IsMutation(c) && IsDuplicate(Value(), c.clientId, c.commandId)
      ensures answer.Some? ==> answer.value == Apply(Value(), c).1 && Apply(Value(), c).0 == Value()
    {
      var dup := IsDuplicateRequest(c.clientId, c.commandId);
      if c.work != GetWork && dup {
        return Some(lastOperations[c.clientId].last);
      }
      return None;
    }
  }

  /** What the map's own methods do is what `KV` says of a command. */
  lemma AppliedAs(store: Store, c: Command, store': Store, response: Response)
    requires c.Request?
    requires c.work == PutWork ==> store' == store[c.key := c.value]
    requires c.work == AppendWork ==> store' == store[c.key := (if c.key in store then store[c.key] else "") + c.value]
    requires c.work == GetWork ==> store' == store
    requires response == if c.work != GetWork then Response(OK, "")
                         else if c.key in store then Response(OK, store[c.key]) else Response(ErrNoKey, "")
    ensures store' == if IsMutation(c) then Mutate(store, c) else store
    ensures response == if IsMutation(c) then Response(OK, "") else Lookup(store, c.key)
  {
  }

  // ---------- The client ----------

  /** A call that was lost, or its response. */
  datatype Reply = Lost | Got(response: Response)

  class Clerk {
    const servers: nat
    const clientId: int
    var leaderId: nat
    var commandId: int

    predicate Valid()
      reads this
    {
      leaderId < servers
    }

    constructor (servers: nat, clientId: int)
      requires servers > 0
      ensures Valid() && commandId == 0 && leaderId == 0 && this.servers == servers && this.clientId == clientId
    {
      this.servers, this.clientId, leaderId, commandId := servers, clientId, 0, 0;
    }

    /**
     * The retry loop, for as many replies as are given.  Every call carries the same numbered
     * request, going round the servers one by one; only OK or ErrNoKey is a final answer, and
     * only that advances the number.
     */
    method Command(key: string, value: string, work: WorkType, replies: seq<Reply>)
      returns (answer: Option<string>, calls: seq<(nat, Types.Command)>)
      requires Valid()
      modifies this
      ensures Valid()
      ensures forall i :: 0 <= i < |calls| ==> calls[i].1 == Request(key, value, work, clientId, old(commandId))
      ensures |calls| > 0 ==> calls[0].0 == old(leaderId)
      ensures forall i :: 0 < i < |calls| ==> calls[i].0 == (calls[i - 1].0 + 1) % servers
      ensures answer.Some? <==>
                exists i :: 0 <= i < |replies| && replies[i].Got? && (replies[i].response.err == OK || replies[i].response.err == ErrNoKey)
      ensures |calls| <= |replies|
      ensures answer.Some? ==>
                |calls| > 0 &&
                var last := replies[|calls| - 1];
                last.Got? && (last.response.err == OK || last.response.err == ErrNoKey) && answer.value == last.response.value
      ensures forall i :: 0 <= i < (if answer.Some? then |calls| - 1 else |replies|) ==>
                replies[i].Lost? || replies[i].response.err == ErrWrongLeader || replies[i].response.err == ErrTimeout
      ensures answer.Some? ==> commandId == old(commandId) + 1 && leaderId == calls[|calls| - 1].0
      ensures answer.None? ==> commandId == old(commandId) && |calls| == |replies|
      ensures answer.None? ==> leaderId == if calls == [] then old(leaderId) else (calls[|calls| - 1].0 + 1) % servers
    {
      var request := Request(key, value, work, clientId, commandId);
      calls := [];
      var k := 0;
      while k < |replies|
        invariant 0 <= k <= |replies| && Valid() && commandId == old(commandId)
        invariant |calls| == k && leaderId == if k == 0 then old(leaderId) else (calls[k - 1].0 + 1) % servers
        invariant forall i :: 0 <= i < k ==> calls[i].1 == request
        invariant k > 0 ==> calls[0].0 == old(leaderId)
        invariant forall i :: 0 < i < k ==> calls[i].0 == (calls[i - 1].0 + 1) % servers
        invariant forall i :: 0 <= i < k ==>
                    replies[i].Lost? || replies[i].response.err == ErrWrongLeader || replies[i].response.err == ErrTimeout
      {
        calls := calls + [(leaderId, request)];
        var reply := replies[k];
        if reply.Lost? || reply.response.err == ErrWrongLeader || reply.response.err == ErrTimeout {
          leaderId := (leaderId + 1) % servers;
          k := k + 1;
        } else {
          commandId := commandId + 1;
          return Some(reply.response.value), calls;
        }
      }
      answer := None;
    }
  }
}
