/**
 * The replicated key-value machine of lab3 as functions of the commands applied so far:
 * the key map, the per-client duplicate table, and what the table lets through.
 */
module KV {
  import opened Types

  datatype Err = OK | ErrNoKey | ErrWrongLeader | ErrTimeout
  datatype Response = Response(err: Err, value: string)

  /** The last mutation recorded for a client. */
  datatype Operation = Operation(maxApplied: int, last: Response)

  type Store = map<string, string>

  /** What takeSnapshot encodes and restoreSnapshot decodes. */
  datatype Machine = Machine(store: Store, ops: map<int, Operation>)

  const Empty := Machine(map[], map[])

  function Lookup(store: Store, key: string): Response {
    if key in store then Response(OK, store[key]) else Response(ErrNoKey, "")
  }

  predicate IsMutation(c: Command) {
    c.Request? && c.work != GetWork
  }

  /** What a Put or an Append does to the map; an absent key appends to the empty string. */
  function Mutate(store: Store, c: Command): Store
    requires IsMutation(c)
  {
    if c.work == PutWork then store[c.key := c.value] else store[c.key := Lookup(store, c.key).value + c.value]
  }

  predicate IsDuplicate(m: Machine, client: int, id: int) {
    client in m.ops && id <= m.ops[client].maxApplied
  }

  /** The applier's treatment of one command.  Reads are neither recorded nor suppressed. */
  function Apply(m: Machine, c: Command): (Machine, Response) {
    if !c.Request? then (m, Response(OK, ""))
    else if c.work == GetWork then (m, Lookup(m.store, c.key))
    else if IsDuplicate(m, c.clientId, c.commandId) then (m, m.ops[c.clientId].last)
    else
      var response := Response(OK, "");
      (Machine(Mutate(m.store, c), m.ops[c.clientId := Operation(c.commandId, response)]), response)
  }

  function Run(m: Machine, cs: seq<Command>): Machine {
    if cs == [] then m else Apply(Run(m, cs[..|cs| - 1]), Last(cs)).0
  }

  function Replay(cs: seq<Command>): Machine {
    Run(Empty, cs)
  }

  /** Replaying from a snapshot of the first part is replaying the whole. */
  lemma {:induction false} RunSplit(m: Machine, a: seq<Command>, b: seq<Command>)
    ensures Run(m, a + b) == Run(Run(m, a), b)
    decreases |b|
  {
    if b == [] {
      assert a + b == a;
    } else {
      RunSplit(m, a, b[..|b| - 1]);
      assert (a + b)[..|a + b| - 1] == a + b[..|b| - 1];
    }
  }

  /** The state left by a server that stops at each cut and resumes from the snapshot it took there. */
  function Resumed(log: seq<Command>, cuts: seq<nat>): Machine
    requires forall i :: 0 <= i < |cuts| ==> cuts[i] <= |log|
    requires forall i, j :: 0 <= i <= j < |cuts| ==> cuts[i] <= cuts[j]
  {
    if cuts == [] then Empty
    else
      var before := cuts[..|cuts| - 1];
      Run(Resumed(log, before), log[if before == [] then 0 else Last(before)..Last(cuts)])
  }

  /** Cut points do not matter: at the last one the server is where replaying from empty leads. */
  lemma {:induction false} CutsDoNotMatter(log: seq<Command>, cuts: seq<nat>)
    requires |cuts| > 0
    requires forall i :: 0 <= i < |cuts| ==> cuts[i] <= |log|
    requires forall i, j :: 0 <= i <= j < |cuts| ==> cuts[i] <= cuts[j]
    ensures Resumed(log, cuts) == Replay(log[..Last(cuts)])
    decreases |cuts|
  {
    var before := cuts[..|cuts| - 1];
    if before == [] {
      assert log[0..Last(cuts)] == log[..Last(cuts)];
    } else {
      CutsDoNotMatter(log, before);
      var k := Last(before);
      assert k == cuts[|cuts| - 2] <= Last(cuts);
      RunSplit(Empty, log[..k], log[k..Last(cuts)]);
      assert log[..Last(cuts)] == log[..k] + log[k..Last(cuts)];
    }
  }

  // ---------- Which mutations take effect ----------

  /** Another mutation of the same client. */
  predicate SameClient(c: Command, d: Command) {
    IsMutation(c) && IsMutation(d) && c.clientId == d.clientId
  }

  /** Mutation i carries a larger id than any earlier one of its client. */
  predicate Fresh(cs: seq<Command>, i: nat)
    requires i < |cs|
  {
    IsMutation(cs[i]) && forall j :: 0 <= j < i && SameClient(cs[j], cs[i]) ==> cs[j].commandId < cs[i].commandId
  }

  /** The log without its non-increasing repeats, reads and placeholders. */
  function Effective(cs: seq<Command>): seq<Command> {
    if cs == [] then []
    else
      var before := Effective(cs[..|cs| - 1]);
      if Fresh(cs, |cs| - 1) then before + [Last(cs)] else before
  }

  /** Plain application, without any table. */
  function Plain(store: Store, cs: seq<Command>): Store
    requires forall c :: c in cs ==> IsMutation(c)
  {
    if cs == [] then store else Mutate(Plain(store, cs[..|cs| - 1]), Last(cs))
  }

  lemma {:induction false} EffectiveMutates(cs: seq<Command>)
    ensures forall c :: c in Effective(cs) ==> IsMutation(c)
    decreases |cs|
  {
    if cs != [] {
      EffectiveMutates(cs[..|cs| - 1]);
    }
  }

  /** A client's entry in the table is the largest id among its mutations, and answers OK. */
  ghost predicate TableOf(cs: seq<Command>, ops: map<int, Operation>) {
    && (forall i :: 0 <= i < |cs| && IsMutation(cs[i]) ==>
          cs[i].clientId in ops && cs[i].commandId <= ops[cs[i].clientId].maxApplied)
    && (forall client :: client in ops ==>
          ops[client].last == Response(OK, "") &&
          exists i :: 0 <= i < |cs| && IsMutation(cs[i]) && cs[i].clientId == client && cs[i].commandId == ops[client].maxApplied)
  }

  lemma {:induction false} TableIsMax(cs: seq<Command>)
    ensures TableOf(cs, Replay(cs).ops)
    decreases |cs|
  {
    if cs != [] {
      TableIsMax(cs[..|cs| - 1]);
      TableStep(cs);
    }
  }

  lemma TableStep(cs: seq<Command>)
    requires cs != [] && TableOf(cs[..|cs| - 1], Replay(cs[..|cs| - 1]).ops)
    ensures TableOf(cs, Replay(cs).ops)
  {
    hide Mutate;
    var init, c := cs[..|cs| - 1], Last(cs);
    var m, m' := Replay(init), Replay(cs);
    assert m' == Apply(m, c).0;
    assert forall i :: 0 <= i < |init| ==> init[i] == cs[i];
    forall client | client in m'.ops
      ensures m'.ops[client].last == Response(OK, "")
      ensures exists i :: 0 <= i < |cs| && IsMutation(cs[i]) && cs[i].clientId == client && cs[i].commandId == m'.ops[client].maxApplied
    {
      if client in m.ops && m'.ops[client] == m.ops[client] {
        var i :| 0 <= i < |init| && IsMutation(init[i]) && init[i].clientId == client && init[i].commandId == m.ops[client].maxApplied;
        assert cs[i] == init[i];
      } else {
        assert cs[|cs| - 1] == c;
      }
    }
  }

  /** The table lets a mutation through exactly when it is fresh. */
  lemma FreshIsNotDuplicate(cs: seq<Command>)
    requires cs != [] && IsMutation(Last(cs))
    ensures Fresh(cs, |cs| - 1) <==> !IsDuplicate(Replay(cs[..|cs| - 1]), Last(cs).clientId, Last(cs).commandId)
  {
    hide Replay;
    var init, c := cs[..|cs| - 1], Last(cs);
    var m := Replay(init);
    TableIsMax(init);
    assert forall i :: 0 <= i < |init| ==> init[i] == cs[i];
    if IsDuplicate(m, c.clientId, c.commandId) {
      var i :| 0 <= i < |init| && IsMutation(init[i]) && init[i].clientId == c.clientId && init[i].commandId == m.ops[c.clientId].maxApplied;
      assert SameClient(cs[i], c);
    }
  }

  /** The map is what plain application of the log without its repeats gives. */
  lemma {:induction false} DuplicatesSuppressed(cs: seq<Command>)
    ensures forall c :: c in Effective(cs) ==> IsMutation(c)
    ensures Replay(cs).store == Plain(map[], Effective(cs))
    decreases |cs|
  {
    EffectiveMutates(cs);
    if cs != [] {
      var init := cs[..|cs| - 1];
      DuplicatesSuppressed(init);
      if Fresh(cs, |cs| - 1) {
        var e := Effective(init);
        assert (e + [Last(cs)])[..|e| + 1 - 1] == e;
      }
      if IsMutation(Last(cs)) {
        FreshIsNotDuplicate(cs);
      }
    }
  }

  /** At most once: no two places of the log take effect for the same client and id. */
  lemma AtMostOnce(cs: seq<Command>, i: nat, j: nat)
    requires i < |cs| && j < |cs| && Fresh(cs, i) && Fresh(cs, j)
    requires cs[i].clientId == cs[j].clientId && cs[i].commandId == cs[j].commandId
    ensures i == j
  {
    assert i < j ==> SameClient(cs[i], cs[j]);
    assert j < i ==> SameClient(cs[j], cs[i]);
  }

  /** The mutation at i is the first with its client and id. */
  predicate FirstUse(cs: seq<Command>, i: nat)
    requires i < |cs|
  {
    IsMutation(cs[i]) && forall j :: 0 <= j < i && SameClient(cs[j], cs[i]) ==> cs[j].commandId != cs[i].commandId
  }

  /** The client's ids first appear in increasing order. */
  predicate InOrder(cs: seq<Command>, client: int) {
    forall i, j :: 0 <= j < i < |cs| && FirstUse(cs, i) && FirstUse(cs, j) && cs[i].clientId == client == cs[j].clientId ==>
      cs[j].commandId < cs[i].commandId
  }

  /** Some place of the log takes effect for the mutation at i. */
  predicate TakesEffect(cs: seq<Command>, i: nat)
    requires i < |cs| && IsMutation(cs[i])
  {
    exists k :: 0 <= k < |cs| && Fresh(cs, k) && cs[k].clientId == cs[i].clientId && cs[k].commandId == cs[i].commandId
  }

  lemma {:induction false} HasFirstUse(cs: seq<Command>, i: nat) returns (k: nat)
    requires i < |cs| && IsMutation(cs[i])
    ensures k <= i && FirstUse(cs, k) && SameClient(cs[k], cs[i]) && cs[k].commandId == cs[i].commandId
    decreases i
  {
    if FirstUse(cs, i) {
      k := i;
    } else {
      var j :| 0 <= j < i && SameClient(cs[j], cs[i]) && cs[j].commandId == cs[i].commandId;
      k := HasFirstUse(cs, j);
    }
  }

  /**
   * Exactly once: every mutation of a client takes effect (by `AtMostOnce` then exactly once)
   * if and only if its ids first appear in increasing order.
   */
  lemma ExactlyOnceIff(cs: seq<Command>, client: int)
    ensures InOrder(cs, client) <==>
            forall i :: 0 <= i < |cs| && IsMutation(cs[i]) && cs[i].clientId == client ==> TakesEffect(cs, i)
  {
    if InOrder(cs, client) {
      forall i | 0 <= i < |cs| && IsMutation(cs[i]) && cs[i].clientId == client
        ensures TakesEffect(cs, i)
      {
        var k := HasFirstUse(cs, i);
        FirstIsFresh(cs, client, k);
      }
    } else {
      var i, j :| 0 <= j < i < |cs| && FirstUse(cs, i) && FirstUse(cs, j) && cs[i].clientId == client == cs[j].clientId
                  && cs[j].commandId >= cs[i].commandId;
      assert SameClient(cs[j], cs[i]);
      forall k | 0 <= k < |cs| && Fresh(cs, k) && cs[k].clientId == cs[i].clientId
        ensures cs[k].commandId != cs[i].commandId
      {
        assert j < k ==> SameClient(cs[j], cs[k]);
        assert k < i ==> SameClient(cs[k], cs[i]);
      }
      assert !TakesEffect(cs, i);
    }
  }

  lemma FirstIsFresh(cs: seq<Command>, client: int, k: nat)
    requires InOrder(cs, client) && k < |cs| && FirstUse(cs, k) && cs[k].clientId == client
    ensures Fresh(cs, k)
  {
    forall j | 0 <= j < k && SameClient(cs[j], cs[k])
      ensures cs[j].commandId < cs[k].commandId
    {
      var f := HasFirstUse(cs, j);
    }
  }

  /**
   * A suppressed mutation is answered as the one that took effect was, although the table may
   * meanwhile hold the answer to a newer command of the client.
   */
  lemma DuplicateAnswer(cs: seq<Command>, i: nat)
    requires i < |cs| && IsMutation(cs[i])
    ensures Apply(Replay(cs[..i]), cs[i]).1 == Response(OK, "")
  {
    TableIsMax(cs[..i]);
  }

  /** Reads see the map and change nothing, whatever their id. */
  lemma ReadsAreFree(a: seq<Command>, get: Command, b: seq<Command>)
    requires get.Request? && get.work == GetWork
    ensures Replay(a + [get] + b) == Replay(a + b)
    ensures Apply(Replay(a), get).1 == Lookup(Plain(map[], PlainLog(a)), get.key)
  {
    RunSplit(Empty, a + [get], b);
    RunSplit(Empty, a, [get]);
    RunSplit(Empty, a, b);
    assert [get][..0] == [];
    DuplicatesSuppressed(a);
  }

  /** `Effective`, with what `Plain` needs to know of it. */
  function PlainLog(cs: seq<Command>): (r: seq<Command>)
    ensures forall c :: c in r ==> IsMutation(c)
  {
    EffectiveMutates(cs);
    Effective(cs)
  }

  // ---------- What a key holds ----------

  predicate Names(c: Command, key: string) {
    IsMutation(c) && c.key == key
  }

  predicate Named(es: seq<Command>, key: string) {
    exists c :: c in es && Names(c, key)
  }

  /** No command of the log is a Put of the key. */
  predicate NoPut(es: seq<Command>, key: string) {
    forall c :: c in es && Names(c, key) ==> c.work == AppendWork
  }

  /** The values of the commands that name the key, one after the other. */
  function Joined(es: seq<Command>, key: string): string {
    if es == [] then ""
    else Joined(es[..|es| - 1], key) + if Names(Last(es), key) then Last(es).value else ""
  }

  lemma Regroup(a: string, b: string, c: string)
    ensures (a + b) + c == a + (b + c)
  {
  }

  lemma {:induction false} PlainSplit(store: Store, a: seq<Command>, b: seq<Command>)
    requires (forall c :: c in a ==> IsMutation(c)) && forall c :: c in b ==> IsMutation(c)
    ensures Plain(store, a + b) == Plain(Plain(store, a), b)
    decreases |b|
  {
    hide Mutate;
    if b == [] {
      assert a + b == a;
    } else {
      PlainSplit(store, a, b[..|b| - 1]);
      assert (a + b)[..|a + b| - 1] == a + b[..|b| - 1];
    }
  }

  /** Without a Put of the key, every command that names it adds its value at the end. */
  lemma {:induction false} AppendsHold(store: Store, es: seq<Command>, key: string)
    requires (forall c :: c in es ==> IsMutation(c)) && NoPut(es, key)
    ensures key in Plain(store, es) <==> key in store || Named(es, key)
    ensures key in store ==> Plain(store, es)[key] == store[key] + Joined(es, key)
    ensures key !in store && key in Plain(store, es) ==> Plain(store, es)[key] == Joined(es, key)
    decreases |es|
  {
    if es != [] {
      var init, c := es[..|es| - 1], Last(es);
      assert es == init + [c];
      AppendsHold(store, init, key);
      var had := if key in store then store[key] else "";
      Regroup(had, Joined(init, key), if Names(c, key) then c.value else "");
      if !Named(init, key) {
        JoinedNone(init, key);
      }
    }
  }

  lemma {:induction false} JoinedNone(es: seq<Command>, key: string)
    requires forall c :: c in es ==> !Names(c, key)
    ensures Joined(es, key) == ""
    decreases |es|
  {
    if es != [] {
      JoinedNone(es[..|es| - 1], key);
    }
  }

  /** What follows a Put of the key starts from its value. */
  lemma PutHolds(before: seq<Command>, put: Command, after: seq<Command>, key: string)
    requires (forall c :: c in before ==> IsMutation(c)) && (forall c :: c in after ==> IsMutation(c)) && NoPut(after, key)
    requires Names(put, key) && put.work == PutWork
    ensures forall c :: c in before + [put] + after ==> IsMutation(c)
    ensures key in Plain(map[], before + [put] + after)
    ensures Plain(map[], before + [put] + after)[key] == put.value + Joined(after, key)
  {
    PlainSplit(map[], before, [put]);
    PlainSplit(map[], before + [put], after);
    assert [put][..0] == [];
    AppendsHold(Plain(map[], before + [put]), after, key);
  }

  /** The last Put of the key, -1 if there is none. */
  lemma {:induction false} LastPut(es: seq<Command>, key: string) returns (k: int)
    ensures -1 <= k < |es|
    ensures k >= 0 ==> Names(es[k], key) && es[k].work == PutWork && NoPut(es[k + 1..], key)
    ensures k < 0 ==> NoPut(es, key)
    decreases |es|
  {
    if es == [] {
      k := -1;
    } else if Names(Last(es), key) && Last(es).work == PutWork {
      k := |es| - 1;
    } else {
      k := LastPut(es[..|es| - 1], key);
      assert es == es[..|es| - 1] + [Last(es)];
      if k >= 0 {
        assert es[k + 1..] == es[..|es| - 1][k + 1..] + [Last(es)];
      }
    }
  }

  /**
   * After any log, a key holds the value of the last effective Put of it, at k, followed by the
   * values of the effective Appends after that, in order; without a Put (k is -1) the values of
   * all its Appends; and it is absent exactly if no effective mutation names it.
   */
  lemma KeyHolds(cs: seq<Command>, key: string) returns (k: int)
    ensures -1 <= k < |Effective(cs)|
    ensures key in Replay(cs).store <==> Named(Effective(cs), key)
    ensures k >= 0 ==> Names(Effective(cs)[k], key) && Effective(cs)[k].work == PutWork && NoPut(Effective(cs)[k + 1..], key)
    ensures k >= 0 ==> key in Replay(cs).store &&
                       Replay(cs).store[key] == Effective(cs)[k].value + Joined(Effective(cs)[k + 1..], key)
    ensures k < 0 ==> NoPut(Effective(cs), key)
    ensures k < 0 && key in Replay(cs).store ==> Replay(cs).store[key] == Joined(Effective(cs), key)
  {
    hide Replay, Effective, Plain, Joined, NoPut, Named, Names;
    DuplicatesSuppressed(cs);
    k := LastPut(Effective(cs), key);
    if k >= 0 {
      HeldAfterPut(Effective(cs), k, key);
    } else {
      AppendsHold(map[], Effective(cs), key);
    }
  }

  lemma HeldAfterPut(es: seq<Command>, k: nat, key: string)
    requires (forall c :: c in es ==> IsMutation(c)) && k < |es| && NoPut(es[k + 1..], key)
    requires Names(es[k], key) && es[k].work == PutWork
    ensures key in Plain(map[], es) && Plain(map[], es)[key] == es[k].value + Joined(es[k + 1..], key)
    ensures Named(es, key)
  {
    hide Plain, Joined, NoPut, Names;
    var before, put, after := CutOut(es, k);
    PutHolds(before, put, after, key);
  }

  lemma CutOut(es: seq<Command>, k: nat) returns (before: seq<Command>, put: Command, after: seq<Command>)
    requires k < |es| && forall c :: c in es ==> IsMutation(c)
    ensures es == before + [put] + after && put == es[k] && put in es && after == es[k + 1..]
    ensures (forall c :: c in before ==> IsMutation(c)) && forall c :: c in after ==> IsMutation(c)
  {
    hide IsMutation;
    before, put, after := es[..k], es[k], es[k + 1..];
  }

  /** A Get answers with what the key then holds, and changes nothing. */
  lemma GetReads(cs: seq<Command>, get: Command)
    requires get.Request? && get.work == GetWork
    ensures Apply(Replay(cs), get) ==
            (Replay(cs), if get.key in Replay(cs).store then Response(OK, Replay(cs).store[get.key]) else Response(ErrNoKey, ""))
  {
  }

  // ---------- A client's numbering reaches the log in order ----------

  /**
   * Clerks and the committed log.  `next` is each clerk's current command number, `sent` every
   * request ever sent, reads included.
   */
  datatype Session = Session(next: map<int, int>, sent: set<Command>, log: seq<Command>)

  datatype Move =
    | Send(c: Command)
    | Commit(c: Command)
    | MoveOn(client: int)

  predicate Allowed(s: Session, move: Move) {
    match move
    case Send(c) => c.Request? && c.clientId in s.next && c.commandId == s.next[c.clientId]
    case Commit(c) => c in s.sent
    case MoveOn(client) => client in s.next
  }

  /** The clerk moves on only when the mutation it sent, if any, is in the log. */
  predicate Genuine(s: Session, move: Move) {
    move.MoveOn? && move.client in s.next ==>
      forall c :: c in s.sent && IsMutation(c) && c.clientId == move.client && c.commandId == s.next[move.client] ==>
        exists i :: 0 <= i < |s.log| && SameClient(s.log[i], c) && s.log[i].commandId == c.commandId
  }

  function Moved(s: Session, move: Move): Session {
    match move
    case Send(c) => s.(sent := s.sent + {c})
    case Commit(c) => s.(log := s.log + [c])
    case MoveOn(client) => if client in s.next then s.(next := s.next[client := s.next[client] + 1]) else s
  }

  function AfterMoves(s: Session, moves: seq<Move>): Session {
    if moves == [] then s else Moved(AfterMoves(s, moves[..|moves| - 1]), Last(moves))
  }

  predicate AllGenuine(s: Session, moves: seq<Move>) {
    moves == [] ||
    (AllGenuine(s, moves[..|moves| - 1])
     && Allowed(AfterMoves(s, moves[..|moves| - 1]), Last(moves))
     && Genuine(AfterMoves(s, moves[..|moves| - 1]), Last(moves)))
  }

  /** Numbers sent are at most the current one, and every smaller one sent is already in the log. */
  ghost predicate Numbered(s: Session) {
    && (forall c :: c in s.sent ==> c.Request? && c.clientId in s.next && c.commandId <= s.next[c.clientId])
    && (forall i :: 0 <= i < |s.log| ==> s.log[i] in s.sent)
    && (forall c :: c in s.sent && IsMutation(c) && c.commandId < s.next[c.clientId] ==> InLog(s.log, c))
    && (forall client :: InOrder(s.log, client))
  }

  predicate InLog(log: seq<Command>, c: Command) {
    exists i :: 0 <= i < |log| && SameClient(log[i], c) && log[i].commandId == c.commandId
  }

  lemma CommitKeeps(s: Session, c: Command)
    requires Numbered(s) && c in s.sent
    ensures Numbered(Moved(s, Commit(c)))
  {
    hide InOrder, FirstUse, IsMutation, SameClient;
    var s' := Moved(s, Commit(c));
    forall d | d in s'.sent && IsMutation(d) && d.commandId < s'.next[d.clientId]
      ensures InLog(s'.log, d)
    {
      InLogGrows(s.log, c, d);
    }
    forall client
      ensures InOrder(s'.log, client)
    {
      CommitInOrder(s, c, client);
    }
  }

  lemma InLogGrows(log: seq<Command>, c: Command, d: Command)
    requires InLog(log, d)
    ensures InLog(log + [c], d)
  {
    var i :| 0 <= i < |log| && SameClient(log[i], d) && log[i].commandId == d.commandId;
    assert (log + [c])[i] == log[i];
  }

  lemma CommitInOrder(s: Session, c: Command, client: int)
    requires Numbered(s) && c in s.sent
    ensures InOrder(s.log + [c], client)
  {
    hide Numbered;
    var log, log' := s.log, s.log + [c];
    assert InOrder(log, client) by { OrderOf(s, client); }
    forall i, j | 0 <= j < i < |log'| && FirstUse(log', i) && FirstUse(log', j) && log'[i].clientId == client == log'[j].clientId
      ensures log'[j].commandId < log'[i].commandId
    {
      FirstUseBefore(log, c, j);
      if i < |log| {
        FirstUseBefore(log, c, i);
      } else {
        NewestIsCurrent(s, c);
        assert SameClient(log[j], c);
      }
    }
  }

  lemma OrderOf(s: Session, client: int)
    requires Numbered(s)
    ensures InOrder(s.log, client)
  {
  }

  lemma FirstUseBefore(log: seq<Command>, c: Command, i: nat)
    requires i < |log| && FirstUse(log + [c], i)
    ensures FirstUse(log, i)
  {
    assert forall j :: 0 <= j <= i ==> (log + [c])[j] == log[j];
  }

  lemma FirstNotInLog(log: seq<Command>, c: Command)
    requires FirstUse(log + [c], |log|)
    ensures IsMutation(c) && !InLog(log, c)
  {
    assert forall j :: 0 <= j < |log| ==> (log + [c])[j] == log[j];
  }

  /** A number first seen in the log now is its clerk's current one. */
  lemma NewestIsCurrent(s: Session, c: Command)
    requires Numbered(s) && c in s.sent && FirstUse(s.log + [c], |s.log|)
    ensures IsMutation(c)
    ensures forall j :: 0 <= j < |s.log| && SameClient(s.log[j], c) ==> s.log[j].commandId < c.commandId
  {
    hide InOrder, FirstUse;
    FirstNotInLog(s.log, c);
    assert c.commandId == s.next[c.clientId];
    forall j | 0 <= j < |s.log| && SameClient(s.log[j], c)
      ensures s.log[j].commandId < c.commandId
    {
      assert s.log[j] in s.sent;
    }
  }

  lemma MoveKeeps(s: Session, move: Move)
    requires Numbered(s) && Allowed(s, move) && Genuine(s, move)
    ensures Numbered(Moved(s, move))
  {
    hide InOrder;
    match move {
      case Send(c) =>
      case Commit(c) => CommitKeeps(s, c);
      case MoveOn(client) =>
        var s' := Moved(s, move);
        forall c | c in s'.sent && IsMutation(c) && c.commandId < s'.next[c.clientId]
          ensures InLog(s'.log, c)
        {
        }
    }
  }

  lemma {:induction false} SessionOk(clients: set<int>, moves: seq<Move>)
    requires AllGenuine(Session(map c | c in clients :: 0, {}, []), moves)
    ensures Numbered(AfterMoves(Session(map c | c in clients :: 0, {}, []), moves))
    decreases |moves|
  {
    hide Moved, Genuine, Allowed;
    if moves != [] {
      var init := moves[..|moves| - 1];
      SessionOk(clients, init);
      MoveKeeps(AfterMoves(Session(map c | c in clients :: 0, {}, []), init), Last(moves));
    }
  }

  /**
   * Clerks that number their commands one after the other, each moving on only once its mutation
   * is in the log, get exactly-once effects, however often and late requests are repeated.
   */
  lemma ClerksGetExactlyOnce(clients: set<int>, moves: seq<Move>, i: nat)
    requires AllGenuine(Session(map c | c in clients :: 0, {}, []), moves)
    requires var log := AfterMoves(Session(map c | c in clients :: 0, {}, []), moves).log;
             i < |log| && IsMutation(log[i])
    ensures TakesEffect(AfterMoves(Session(map c | c in clients :: 0, {}, []), moves).log, i)
  {
    hide AfterMoves, AllGenuine;
    SessionOk(clients, moves);
    var log := AfterMoves(Session(map c | c in clients :: 0, {}, []), moves).log;
    assert InOrder(log, log[i].clientId);
    ExactlyOnceIff(log, log[i].clientId);
  }
}
