/**
 * The client as the program writes it: an object whose methods update its
 * fields under the mutex. Each method is one such section, and is proved to
 * take exactly the corresponding step of the protocol.
 */
module CodexObject {
  import opened Seqs
  import opened CodexProtocol

  class CodexClient {
    var cmd: Option<nat>
    var stdin: Option<nat>
    var nextID: nat
    var initialized: bool
    var pending: set<nat>
    var watchers: map<TurnKey, nat>
    var buffered: map<TurnKey, seq<Note>>
    var pendingAccount: Option<Note>
    var active: set<TurnKey>

    // The channels the fields above refer to.
    var replies: map<nat, seq<Reply>>
    var channels: seq<TurnChannel>

    // What happened: processes started, the process each id was written to,
    // and the sends each live reader has yet to perform.
    var starts: nat
    ghost var issued: map<nat, nat>
    var readers: map<nat, seq<Send>>

    ghost function State(): Client
      reads this
    {
      Client(Process(cmd, stdin, initialized, starts), Calls(nextID, pending, issued, replies),
             Turns(watchers, buffered, pendingAccount, active, channels), readers)
    }

    /** Kept by every method: each takes a step of the protocol (StepKeepsInv). */
    ghost predicate Valid()
      reads this
    {
      Inv(State())
    }

    constructor ()
      ensures Valid() && State() == INITIAL
    {
      cmd, stdin, nextID, initialized, pending := None, None, 0, false, {};
      watchers, buffered, pendingAccount, active := map[], map[], None, {};
      replies, channels, starts, issued, readers := map[], [], 0, map[], map[];
    }

    /** startLocked, once the process runs: it is a new one, its reader owes nothing, and nobody waits for it yet. */
    method StartProcess() returns (process: nat)
      requires Valid() && stdin.None?
      modifies this
      ensures Valid() && State() == old(Step(State(), Start)) && stdin == Some(process)
      ensures process !in old(readers) && Idle(State(), process) && pending == {} && !initialized
      ensures cmd == Some(process) && readers == old(readers)[process := []]
    {
      StepKeepsInv(State(), Start);
      process := Launched();
    }

    method Launched() returns (process: nat)
      modifies this`cmd, this`stdin, this`initialized, this`starts, this`readers
      ensures State() == Launch(old(State())) && process == old(starts)
    {
      process := starts;
      cmd, stdin, initialized := Some(process), Some(process), false;
      starts := starts + 1;
      readers := readers[process := []];
    }

    /** The section of callStarted that allocates an id and writes the request. */
    method WriteRequest(written: bool) returns (id: Option<nat>)
      requires Valid()
      modifies this
      ensures Valid() && State() == old(Step(State(), Issue(written)))
      ensures id.Some? <==> old(stdin).Some? && written
      ensures id.Some? ==> id.value == nextID && id.value !in old(replies)
      ensures nextID == if old(stdin).Some? then old(nextID) + 1 else old(nextID)
      ensures pending == if id.Some? then old(pending) + {nextID} else old(pending)
      ensures replies == if id.Some? then old(replies)[nextID := []] else old(replies)
    {
      StepKeepsInv(State(), Issue(written));
      if stdin.None? { return None; }
      var next := AllocateId(stdin.value, written);
      id := if written then Some(next) else None;
    }

    /** A failed write takes the call's registration back, but not its id. */
    method AllocateId(process: nat, written: bool) returns (id: nat)
      modifies this`nextID, this`pending, this`issued, this`replies
      ensures State().calls == IssueCall(old(State()).calls, process, written) && id == old(nextID) + 1
    {
      nextID := nextID + 1;
      id := nextID;
      if !written { return; }
      pending := pending + {id};
      issued := issued[id := process];
      replies := replies[id := []];
    }

    /**
     * The section of callStarted that runs when the caller's context ends first:
     * the others go on waiting, and a response that still comes changes nothing.
     */
    method AbandonRequest(id: nat)
      requires Valid()
      modifies this
      ensures Valid() && State() == old(Step(State(), Cancel(id)))
      ensures pending == old(pending) - {id} && replies == old(replies) && readers == old(readers)
      ensures forall r, body :: Enabled(State(), Respond(r, id, body)) ==> Step(State(), Respond(r, id, body)) == State()
    {
      StepKeepsInv(State(), Cancel(id));
      pending := pending - {id};
    }

    /** The last section of ensureProcess. */
    method FinishInitialize(written: bool) returns (ok: bool)
      requires Valid()
      modifies this
      ensures Valid() && State() == old(Step(State(), MarkInitialized(written)))
      ensures ok <==> initialized && stdin.Some? && written
      ensures ok <==> old(stdin).Some? && written
    {
      StepKeepsInv(State(), MarkInitialized(written));
      if stdin.None? || !written { return false; }
      initialized := true;
      ok := true;
    }

    /** A response is owed to the call waiting for it, once and without blocking; one nobody waits for is dropped. */
    method DispatchResponse(reader: nat, id: nat, body: string)
      requires Valid() && Enabled(State(), Respond(reader, id, body))
      modifies this
      ensures Valid() && State() == old(Step(State(), Respond(reader, id, body))) && id !in pending
      ensures id in old(pending) ==>
        readers[reader] == [ToCall(id, Response(id, reader, body))] && CanSend(State(), readers[reader][0])
      ensures id in old(pending) ==> forall g :: g != reader ==> Debt(readers, g) != Some(id)
      ensures id !in old(pending) ==> State() == old(State())
    {
      StepKeepsInv(State(), Respond(reader, id, body));
      TakeResponse(reader, id, body);
    }

    method TakeResponse(reader: nat, id: nat, body: string)
      requires Enabled(State(), Respond(reader, id, body))
      modifies this`pending, this`readers
      ensures State() == old(Step(State(), Respond(reader, id, body)))
    {
      var waiting := id in pending;
      pending := pending - {id};
      if waiting {
        readers := readers[reader := [ToCall(id, Response(id, reader, body))]];
      }
    }

    method DispatchNotification(reader: nat, key: TurnKey, body: string)
      requires Valid() && Enabled(State(), Notify(reader, key, body))
      modifies this
      ensures Valid() && State() == old(Step(State(), Notify(reader, key, body)))
      ensures key in old(watchers) ==> readers[reader] == [ToTurn(old(watchers)[key], Keyed(body))] && buffered == old(buffered)
      ensures key !in old(watchers) ==>
        var held := if key in old(buffered) then old(buffered)[key] else [];
        buffered == old(buffered)[key := LastN(held + [Keyed(body)], 256)] && readers == old(readers)
    {
      StepKeepsInv(State(), Notify(reader, key, body));
      if key !in watchers {
        var backlog := LastNotes(if key in buffered then buffered[key] else [], Keyed(body));
        buffered := buffered[key := backlog];
      } else {
        readers := readers[reader := [ToTurn(watchers[key], Keyed(body))]];
      }
    }

    static method LastNotes(held: seq<Note>, note: Note) returns (backlog: seq<Note>)
      ensures backlog == LastN(held + [note], 256)
    {
      backlog := held + [note];
      if |backlog| > MAX_BACKLOG {
        backlog := backlog[|backlog| - MAX_BACKLOG..];
      }
    }

    method DispatchAccount(reader: nat, body: string) returns (order: seq<nat>)
      requires Valid() && Idle(State(), reader)
      modifies this
      ensures old(Enabled(State(), Broadcast(reader, body, order)))
      ensures Valid() && State() == old(Step(State(), Broadcast(reader, body, order)))
      ensures watchers == map[] ==> pendingAccount == Some(Account(body)) && readers == old(readers)
      ensures watchers != map[] ==> pendingAccount == old(pendingAccount) && Broadcasts(watchers, readers[reader], Account(body))
    {
      order := ListWatchers(watchers, State().turns);
      OrderBroadcasts(State().turns, order, Account(body));
      StepKeepsInv(State(), Broadcast(reader, body, order));
      SpreadAccount(reader, body, order);
    }

    method SpreadAccount(reader: nat, body: string, order: seq<nat>)
      requires Enabled(State(), Broadcast(reader, body, order))
      modifies this`pendingAccount, this`readers
      ensures State() == old(Step(State(), Broadcast(reader, body, order)))
      ensures order == [] ==> pendingAccount == Some(Account(body)) && readers == old(readers)
      ensures order != [] ==> pendingAccount == old(pendingAccount) && readers == old(readers)[reader := ToAll(order, Account(body))]
    {
      if |order| == 0 {
        pendingAccount := Some(Account(body));
      } else {
        readers := readers[reader := ToAll(order, Account(body))];
      }
    }

    method DispatchThreadStarted(reader: nat, parent: string, body: string) returns (pick: Option<TurnKey>)
      requires Valid() && Idle(State(), reader)
      modifies this
      ensures old(Enabled(State(), AnnounceThread(reader, parent, body, pick)))
      ensures Valid() && State() == old(Step(State(), AnnounceThread(reader, parent, body, pick)))
      ensures pick.Some? ==>
        && parent != "" && pick.value in old(watchers) && pick.value.thread == parent
        && State() == old(State()).(readers := old(readers)[reader := [ToTurn(old(watchers)[pick.value], ThreadStarted(body))]])
      ensures pick.None? ==>
        (parent == "" || forall key :: key in old(watchers) ==> key.thread != parent) && State() == old(State())
    {
      pick := None;
      if parent != "" { pick := FindChild(watchers, parent); }
      StepKeepsInv(State(), AnnounceThread(reader, parent, body, pick));
      if pick.Some? {
        readers := readers[reader := [ToTurn(watchers[pick.value], ThreadStarted(body))]];
      }
    }

    /** A reader performs the next send it owes; a call's channel is always free. */
    method PerformSend(reader: nat)
      requires Valid() && Enabled(State(), Deliver(reader))
      modifies this
      ensures Valid() && State() == old(Step(State(), Deliver(reader)))
    {
      StepKeepsInv(State(), Deliver(reader));
      SendNext(reader);
    }

    method SendNext(reader: nat)
      requires Enabled(State(), Deliver(reader))
      modifies this`replies, this`channels, this`readers
      ensures State() == Perform(old(State()), reader)
    {
      match readers[reader][0] {
        case ToCall(id, reply) =>
          replies := replies[id := replies[id] + [reply]];
        case ToTurn(channel, note) =>
          channels := channels[channel := channels[channel].Push(note)];
      }
      readers := readers[reader := readers[reader][1..]];
    }

    /** The first loop of failLocked: every send finds its call's channel empty. */
    method FailPending(reason: string)
      requires CallsOk(State().calls)
      modifies this`pending, this`replies
      ensures pending == {} && replies.Keys == old(replies).Keys
      ensures forall id :: id in old(pending) ==> replies[id] == [Failed(reason)]
      ensures forall id :: id in old(replies) && id !in old(pending) ==> replies[id] == old(replies)[id]
      ensures State().calls == old(FailCalls(State().calls, reason))
    {
      while pending != {}
        invariant pending <= old(pending) && replies.Keys == old(replies).Keys
        invariant forall id :: id in replies ==>
          replies[id] == if id in old(pending) && id !in pending then old(replies)[id] + [Failed(reason)] else old(replies)[id]
        decreases pending
      {
        var id :| id in pending;
        pending := pending - {id};
        assert replies[id] == [];
        replies := replies[id := replies[id] + [Failed(reason)]];
      }
    }

    /** The second loop of failLocked: a turn hears of the failure if its channel has room. */
    method FailWatchers(reason: string)
      requires TurnsOk(State().turns)
      modifies this`channels
      ensures State().turns == old(FailTurns(State().turns, reason))
    {
      ghost var before := State().turns;
      channels := OfferAll(watchers, channels, reason);
      assert channels == FailTurns(before, reason).channels;
    }

    /** failLocked: every send here happens under the mutex, and none of them blocks. */
    method FailLocked(reason: string)
      requires Valid()
      modifies this
      ensures Valid() && State() == old(Fail(State(), reason))
      ensures Told(old(State()), State(), reason)
    {
      FailKeepsInv(State(), reason);
      FailTells(State(), reason);
      FailAll(reason);
    }

    method FailAll(reason: string)
      requires CallsOk(State().calls) && TurnsOk(State().turns)
      modifies this`cmd, this`stdin, this`initialized, this`pending, this`replies, this`channels
      ensures State() == old(Fail(State(), reason))
    {
      cmd, stdin, initialized := None, None, false;
      FailPending(reason);
      FailWatchers(reason);
    }

    method ResetConnection()
      requires Valid()
      modifies this
      ensures Valid() && State() == old(Step(State(), Reset))
      ensures Told(old(State()), State(), "connection reset")
    {
      FailLocked("connection reset");
    }

    /** The end of readLoop: only the current process's reader may fail the client. */
    method ReaderExited(reader: nat)
      requires Valid() && Enabled(State(), ReaderExit(reader))
      modifies this
      ensures Valid() && State() == old(Step(State(), ReaderExit(reader))) && reader !in readers
      ensures old(cmd) == Some(reader) ==> Told(old(State()), State(), "stream ended")
      ensures old(cmd) != Some(reader) ==> State() == old(State()).(readers := old(readers) - {reader})
    {
      StepKeepsInv(State(), ReaderExit(reader));
      ExitTells(State(), reader);
      readers := readers - {reader};
      if cmd == Some(reader) {
        FailAll("stream ended");
      }
    }

    /** A new channel with every replayed note already on it: it is made large enough that no send blocks. */
    static method MakeChannel(replay: seq<Note>) returns (ch: TurnChannel)
      ensures ch.log == replay && ch.read == 0
      ensures ch.capacity == if |replay| > 128 then |replay| else 128
    {
      var capacity := MIN_CAPACITY;
      if |replay| > capacity { capacity := |replay|; }
      ch := TurnChannel(capacity, [], 0);
      for i := 0 to |replay|
        invariant ch == TurnChannel(capacity, replay[..i], 0)
      {
        assert ch.HasRoom();
        ch := ch.Push(replay[i]);
      }
      assert replay[..|replay|] == replay;
    }

    /** registerTurn */
    method RegisterWatcher(key: TurnKey) returns (channel: nat)
      requires Valid()
      modifies this
      ensures Valid() && State() == old(Step(State(), Register(key)))
      ensures channel == |old(channels)| && watchers == old(watchers)[key := channel] && active == old(active) + {key}
      ensures buffered == old(buffered) - {key} && pendingAccount == None
      ensures
        var replay := (if old(pendingAccount).Some? then [old(pendingAccount).value] else [])
                      + (if key in old(buffered) then old(buffered)[key] else []);
        channels == old(channels) + [TurnChannel(if |replay| > 128 then |replay| else 128, replay, 0)]
    {
      StepKeepsInv(State(), Register(key));
      channel := AddWatcher(key);
    }

    method AddWatcher(key: TurnKey) returns (channel: nat)
      modifies this`buffered, this`pendingAccount, this`channels, this`watchers, this`active
      ensures State() == old(State()).(turns := RegisterTurn(old(State()).turns, key))
      ensures key in watchers && watchers[key] == channel
    {
      ghost var before := State().turns;
      var backlog := if key in buffered then buffered[key] else [];
      buffered := buffered - {key};
      if pendingAccount.Some? {
        backlog := [pendingAccount.value] + backlog;
        pendingAccount := None;
      } else {
        assert backlog == [] + backlog;
      }
      var ch := MakeChannel(backlog);
      channel := |channels|;
      channels := channels + [ch];
      watchers := watchers[key := channel];
      active := active + {key};
      assert State().turns == RegisterTurn(before, key);
    }

    /** A turn that is done: its channel and the other turns stay as they are, and what comes for it now is held back. */
    method UnregisterWatcher(key: TurnKey)
      requires Valid()
      modifies this
      ensures Valid() && State() == old(Step(State(), Unregister(key)))
      ensures watchers == old(watchers) - {key} && active == old(active) - {key}
      ensures channels == old(channels) && readers == old(readers)
      ensures buffered == old(buffered) && pendingAccount == old(pendingAccount)
      ensures forall r, body :: Enabled(State(), Notify(r, key, body)) ==>
        Step(State(), Notify(r, key, body)).turns == Buffer(State().turns, key, Keyed(body))
    {
      StepKeepsInv(State(), Unregister(key));
      watchers := watchers - {key};
      active := active - {key};
    }
  }

  /** Offers the failure once to each watched channel. */
  method OfferAll(watchers: map<TurnKey, nat>, channels0: seq<TurnChannel>, reason: string) returns (channels: seq<TurnChannel>)
    requires forall key :: key in watchers ==> watchers[key] < |channels0|
    requires forall k, l :: k in watchers && l in watchers && watchers[k] == watchers[l] ==> k == l
    ensures |channels| == |channels0|
    ensures forall c :: 0 <= c < |channels| ==>
      channels[c] == if c in watchers.Values then channels0[c].Offer(Failure(reason)) else channels0[c]
  {
    channels := channels0;
    ghost var owner := map key | key in watchers :: watchers[key] := key;
    var todo := watchers.Keys;
    while todo != {}
      invariant todo <= watchers.Keys && |channels| == |channels0|
      invariant forall c :: 0 <= c < |channels| ==>
        channels[c] == if c in owner && owner[c] !in todo then channels0[c].Offer(Failure(reason)) else channels0[c]
      decreases todo
    {
      var key :| key in todo;
      var c := watchers[key];
      assert owner[c] == key;
      if channels[c].HasRoom() {
        channels := channels[c := channels[c].Push(Failure(reason))];
      }
      todo := todo - {key};
    }
    assert forall c :: c in owner <==> c in watchers.Values;
  }

  /** The first watched turn of a parent thread, in the arbitrary order a map is read in. */
  method FindChild(watchers: map<TurnKey, nat>, parent: string) returns (pick: Option<TurnKey>)
    ensures pick.Some? ==> pick.value in watchers && pick.value.thread == parent
    ensures pick.None? ==> forall key :: key in watchers ==> key.thread != parent
  {
    pick := None;
    var todo := watchers.Keys;
    while todo != {} && pick.None?
      invariant todo <= watchers.Keys
      invariant pick.Some? ==> pick.value in watchers && pick.value.thread == parent
      invariant pick.None? ==> forall key :: key in watchers && key !in todo ==> key.thread != parent
      decreases todo
    {
      var key :| key in todo;
      todo := todo - {key};
      if key.thread == parent { pick := Some(key); }
    }
  }

  /** The channels of all watched turns, in the arbitrary order a map is read in. */
  method ListWatchers(watchers: map<TurnKey, nat>, ghost turns: Turns) returns (order: seq<nat>)
    requires turns.watchers == watchers
    requires forall k, l :: k in watchers && l in watchers && watchers[k] == watchers[l] ==> k == l
    ensures RightOrder(turns, order)
  {
    order := [];
    ghost var from: seq<TurnKey> := [];
    var todo := watchers.Keys;
    while todo != {}
      invariant todo <= watchers.Keys && |from| == |order| && Distinct(from)
      invariant forall i :: 0 <= i < |from| ==> from[i] in watchers && from[i] !in todo && watchers[from[i]] == order[i]
      invariant forall key :: key in watchers && key !in todo ==> key in from
      decreases todo
    {
      var key :| key in todo;
      order := order + [watchers[key]];
      from := from + [key];
      todo := todo - {key};
    }
    forall i | 0 <= i < |order| ensures Watched(turns, order[i]) {
      assert from[i] in turns.watchers && turns.watchers[from[i]] == order[i];
    }
    forall key | key in watchers ensures watchers[key] in order {
      var i :| 0 <= i < |from| && from[i] == key;
      assert order[i] == watchers[key];
    }
  }
}
