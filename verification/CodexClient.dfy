/**
 * The client of the Codex app-server, as a transition system: one action for
 * every section the client runs under its mutex, and one for every channel
 * operation it performs outside it. A run is any sequence of enabled actions,
 * so what CodexRuns proves ranges over every interleaving of callers, turns,
 * resets, process restarts and reader goroutines.
 */
module CodexProtocol {
  import opened Seqs

  const MAX_BACKLOG: nat := 256
  const MIN_CAPACITY: nat := 128

  datatype TurnKey = TurnKey(thread: string, turn: string)

  /** What a turn's channel carries. */
  datatype Note =
    | Keyed(body: string)
    | Account(body: string)
    | ThreadStarted(body: string)
    | Failure(reason: string)

  /** What a call's channel carries: a response, with the id it named and the process that sent it. */
  datatype Reply =
    | Response(id: nat, from: nat, body: string)
    | Failed(reason: string)

  /** A channel send a reader performs after it has released the mutex. */
  datatype Send = ToCall(id: nat, reply: Reply) | ToTurn(channel: nat, note: Note)

  /** A turn's buffered channel: everything ever sent on it, and how much was received. */
  datatype TurnChannel = TurnChannel(capacity: nat, log: seq<Note>, read: nat) {
    predicate HasRoom() { |log| < read + capacity }

    /** Nothing is received before it is sent, and what waits fits. */
    predicate Fits() { MIN_CAPACITY <= capacity && read <= |log| <= read + capacity }

    function Push(note: Note): TurnChannel { this.(log := log + [note]) }

    /** A send that gives up when the channel is full. */
    function Offer(note: Note): TurnChannel { if HasRoom() then Push(note) else this }
  }

  /** The process fields; starts counts the processes ever started, and numbers them. */
  datatype Process = Process(cmd: Option<nat>, stdin: Option<nat>, initialized: bool, starts: nat)

  /**
   * The request fields. A call's channel is named by its id and has capacity
   * one; issued records the process each request was written to, replies
   * everything ever sent on each call's channel.
   */
  datatype Calls = Calls(nextID: nat, pending: set<nat>, issued: map<nat, nat>, replies: map<nat, seq<Reply>>)

  /** The turn fields; a watcher is the number of its channel. */
  datatype Turns = Turns(
    watchers: map<TurnKey, nat>,
    buffered: map<TurnKey, seq<Note>>,
    pendingAccount: Option<Note>,
    active: set<TurnKey>,
    channels: seq<TurnChannel>)

  /** The client, with the sends each live reader still has to perform. */
  datatype Client = Client(process: Process, calls: Calls, turns: Turns, readers: map<nat, seq<Send>>)

  const INITIAL: Client :=
    Client(Process(None, None, false, 0), Calls(0, {}, map[], map[]), Turns(map[], map[], None, {}, []), map[])

  datatype Action =
    | Start
    | Issue(written: bool)
    | Cancel(id: nat)
    | MarkInitialized(written: bool)
    | Respond(reader: nat, id: nat, body: string)
    | Notify(reader: nat, key: TurnKey, body: string)
    | Broadcast(reader: nat, body: string, order: seq<nat>)
    | AnnounceThread(reader: nat, parent: string, body: string, pick: Option<TurnKey>)
    | Deliver(reader: nat)
    | Receive(channel: nat)
    | Reset
    | ReaderExit(reader: nat)
    | Register(key: TurnKey)
    | Unregister(key: TurnKey)

  // ---------------------------------------------------------- the sections

  /** The part of failLocked that touches calls. */
  function FailCalls(calls: Calls, reason: string): Calls {
    calls.(pending := {},
           replies := map id | id in calls.replies ::
             if id in calls.pending then calls.replies[id] + [Failed(reason)] else calls.replies[id])
  }

  /** The part of failLocked that touches turns. */
  function FailTurns(turns: Turns, reason: string): Turns {
    turns.(channels := seq(|turns.channels|, c requires 0 <= c < |turns.channels| =>
             if c in turns.watchers.Values then turns.channels[c].Offer(Failure(reason)) else turns.channels[c]))
  }

  /** Drops the process and fails every waiting call and, where there is room, every turn. */
  function Fail(s: Client, reason: string): Client {
    Client(Process(None, None, false, s.process.starts),
           FailCalls(s.calls, reason), FailTurns(s.turns, reason), s.readers)
  }

  function IssueCall(calls: Calls, process: nat, written: bool): Calls {
    var id := calls.nextID + 1;
    if !written then calls.(nextID := id)
    else Calls(id, calls.pending + {id}, calls.issued[id := process], calls.replies[id := []])
  }

  function Forget(calls: Calls, id: nat): Calls {
    calls.(pending := calls.pending - {id})
  }

  function Answer(calls: Calls, id: nat, reply: Reply): Calls
    requires id in calls.replies
  {
    calls.(replies := calls.replies[id := calls.replies[id] + [reply]])
  }

  function Held(turns: Turns, key: TurnKey): seq<Note> {
    if key in turns.buffered then turns.buffered[key] else []
  }

  function Buffer(turns: Turns, key: TurnKey, note: Note): Turns {
    turns.(buffered := turns.buffered[key := LastN(Held(turns, key) + [note], MAX_BACKLOG)])
  }

  /** What a turn that registers now is replayed. */
  function Replay(turns: Turns, key: TurnKey): seq<Note> {
    (if turns.pendingAccount.Some? then [turns.pendingAccount.value] else []) + Held(turns, key)
  }

  function RegisterTurn(turns: Turns, key: TurnKey): Turns {
    var replay := Replay(turns, key);
    var capacity := if |replay| > MIN_CAPACITY then |replay| else MIN_CAPACITY;
    Turns(turns.watchers[key := |turns.channels|],
          turns.buffered - {key},
          None,
          turns.active + {key},
          turns.channels + [TurnChannel(capacity, replay, 0)])
  }

  function UnregisterTurn(turns: Turns, key: TurnKey): Turns {
    turns.(watchers := turns.watchers - {key}, active := turns.active - {key})
  }

  function PushNote(turns: Turns, channel: nat, note: Note): Turns
    requires channel < |turns.channels|
  {
    turns.(channels := turns.channels[channel := turns.channels[channel].Push(note)])
  }

  function TakeNote(turns: Turns, channel: nat): Turns
    requires channel < |turns.channels|
  {
    turns.(channels := turns.channels[channel := turns.channels[channel].(read := turns.channels[channel].read + 1)])
  }

  function Owe(s: Client, reader: nat, sends: seq<Send>): Client {
    s.(readers := s.readers[reader := sends])
  }

  /** What reading one notification for key makes the reader owe. */
  function Routed(turns: Turns, key: TurnKey, body: string): seq<Send>
    requires key in turns.watchers
  {
    [ToTurn(turns.watchers[key], Keyed(body))]
  }

  function ToAll(order: seq<nat>, note: Note): (sends: seq<Send>)
    ensures |sends| == |order|
    ensures forall i :: 0 <= i < |order| ==> sends[i] == ToTurn(order[i], note)
  {
    seq(|order|, i requires 0 <= i < |order| => ToTurn(order[i], note))
  }

  function Exit(s: Client, reader: nat): Client {
    var t := s.(readers := s.readers - {reader});
    if s.process.cmd == Some(reader) then Fail(t, "stream ended") else t
  }

  function Launch(s: Client): Client {
    var process := s.process.starts;
    s.(process := Process(Some(process), Some(process), false, process + 1), readers := s.readers[process := []])
  }

  // ------------------------------------------------------------- the system

  predicate Idle(s: Client, reader: nat) {
    reader in s.readers && s.readers[reader] == []
  }

  predicate CanSend(s: Client, send: Send) {
    match send
    case ToCall(id, _) => id in s.calls.replies && s.calls.replies[id] == []
    case ToTurn(channel, _) => channel < |s.turns.channels| && s.turns.channels[channel].HasRoom()
  }

  /** A reader performs the first send it owes. */
  function Perform(s: Client, reader: nat): Client
    requires reader in s.readers && s.readers[reader] != [] && CanSend(s, s.readers[reader][0])
  {
    var t := Owe(s, reader, s.readers[reader][1..]);
    match s.readers[reader][0]
    case ToCall(id, reply) => t.(calls := Answer(s.calls, id, reply))
    case ToTurn(channel, note) => t.(turns := PushNote(s.turns, channel, note))
  }

  predicate Enabled(s: Client, a: Action) {
    match a
    case Start => s.process.stdin.None?
    case Respond(reader, _, _) => Idle(s, reader)
    case Notify(reader, _, _) => Idle(s, reader)
    case Broadcast(reader, _, order) => Idle(s, reader) && RightOrder(s.turns, order)
    case AnnounceThread(reader, parent, _, pick) => Idle(s, reader) && RightPick(s.turns, parent, pick)
    case Deliver(reader) => reader in s.readers && s.readers[reader] != [] && CanSend(s, s.readers[reader][0])
    case Receive(channel) =>
      channel < |s.turns.channels| && s.turns.channels[channel].read < |s.turns.channels[channel].log|
    case ReaderExit(reader) => Idle(s, reader)
    case _ => true
  }

  predicate Watched(turns: Turns, channel: nat) {
    exists key :: key in turns.watchers && turns.watchers[key] == channel
  }

  /** An account event goes to every watched channel once, in any order. */
  predicate RightOrder(turns: Turns, order: seq<nat>) {
    && Distinct(order)
    && (forall i :: 0 <= i < |order| ==> Watched(turns, order[i]))
    && (forall key :: key in turns.watchers ==> turns.watchers[key] in order)
  }

  /** A new child thread is announced to some watched turn of its parent thread, if there is one. */
  predicate RightPick(turns: Turns, parent: string, pick: Option<TurnKey>) {
    match pick
    case Some(key) => parent != "" && key in turns.watchers && key.thread == parent
    case None => parent == "" || forall key :: key in turns.watchers ==> key.thread != parent
  }

  function Step(s: Client, a: Action): Client
    requires Enabled(s, a)
  {
    match a
    case Start => Launch(s)
    case Issue(written) =>
      if s.process.stdin.None? then s else s.(calls := IssueCall(s.calls, s.process.stdin.value, written))
    case Cancel(id) => s.(calls := Forget(s.calls, id))
    case MarkInitialized(written) =>
      if s.process.stdin.None? || !written then s else s.(process := s.process.(initialized := true))
    case Respond(reader, id, body) =>
      if id !in s.calls.pending then s
      else Owe(s.(calls := Forget(s.calls, id)), reader, [ToCall(id, Response(id, reader, body))])
    case Notify(reader, key, body) =>
      if key in s.turns.watchers then Owe(s, reader, Routed(s.turns, key, body))
      else s.(turns := Buffer(s.turns, key, Keyed(body)))
    case Broadcast(reader, body, order) =>
      if order == [] then s.(turns := s.turns.(pendingAccount := Some(Account(body))))
      else Owe(s, reader, ToAll(order, Account(body)))
    case AnnounceThread(reader, _, body, pick) =>
      if pick.None? then s else Owe(s, reader, [ToTurn(s.turns.watchers[pick.value], ThreadStarted(body))])
    case Deliver(reader) => Perform(s, reader)
    case Receive(channel) => s.(turns := TakeNote(s.turns, channel))
    case Reset => Fail(s, "connection reset")
    case ReaderExit(reader) => Exit(s, reader)
    case Register(key) => s.(turns := RegisterTurn(s.turns, key))
    case Unregister(key) => s.(turns := UnregisterTurn(s.turns, key))
  }

  /** The state a run leads to from the initial one, if each of its actions was enabled. */
  function Exec(run: seq<Action>): Option<Client> {
    if run == [] then Some(INITIAL)
    else
      var before := Exec(run[..|run| - 1]);
      var last := run[|run| - 1];
      if before.Some? && Enabled(before.value, last) then Some(Step(before.value, last)) else None
  }

  // ---------------------------------------------------------- the invariant

  /** The call a reader owes its answer to. */
  function Debt(readers: map<nat, seq<Send>>, reader: nat): Option<nat> {
    if reader in readers && readers[reader] != [] && readers[reader][0].ToCall?
    then Some(readers[reader][0].id) else None
  }

  ghost predicate ProcessOk(s: Client) {
    && s.process.stdin == s.process.cmd
    && (s.process.stdin.None? ==> s.calls.pending == {} && !s.process.initialized)
    && (s.process.cmd.Some? ==> s.process.cmd.value + 1 == s.process.starts)
    && (forall g :: g in s.readers ==> g < s.process.starts)
  }

  ghost predicate CallsOk(calls: Calls) {
    && calls.issued.Keys == calls.replies.Keys
    && calls.pending <= calls.issued.Keys
    && (forall id :: id in calls.issued ==> 0 < id <= calls.nextID)
    && (forall id :: id in calls.pending ==> calls.replies[id] == [])
    && (forall id :: id in calls.replies ==> |calls.replies[id]| <= 1)
    && (forall id :: id in calls.replies && |calls.replies[id]| == 1 && calls.replies[id][0].Response? ==>
          calls.replies[id][0].id == id)
  }

  /** A reader owes a call at most one send, alone, and nobody else owes that call anything. */
  ghost predicate DebtsOk(readers: map<nat, seq<Send>>, calls: Calls) {
    && (forall g :: Debt(readers, g).Some? ==>
          var d := readers[g][0];
          && |readers[g]| == 1
          && d.id in calls.replies && d.id !in calls.pending && calls.replies[d.id] == []
          && d.reply.Response? && d.reply.id == d.id && d.reply.from == g)
    && (forall g, i :: g in readers && 0 < i < |readers[g]| ==> readers[g][i].ToTurn?)
    && (forall g, h :: Debt(readers, g).Some? && Debt(readers, g) == Debt(readers, h) ==> g == h)
  }

  ghost predicate TurnsOk(turns: Turns) {
    && turns.active == turns.watchers.Keys
    && turns.watchers.Keys !! turns.buffered.Keys
    && (forall key :: key in turns.watchers ==> turns.watchers[key] < |turns.channels|)
    && (forall k, l :: k in turns.watchers && l in turns.watchers && turns.watchers[k] == turns.watchers[l] ==> k == l)
    && (forall key :: key in turns.buffered ==> |turns.buffered[key]| <= MAX_BACKLOG)
    && (turns.pendingAccount.Some? ==> turns.pendingAccount.value.Account?)
    && (forall c :: 0 <= c < |turns.channels| ==> turns.channels[c].Fits())
  }

  ghost predicate RoutesOk(readers: map<nat, seq<Send>>, turns: Turns) {
    forall g, i :: g in readers && 0 <= i < |readers[g]| && readers[g][i].ToTurn? ==>
      readers[g][i].channel < |turns.channels|
  }

  ghost predicate Inv(s: Client) {
    && ProcessOk(s) && CallsOk(s.calls) && DebtsOk(s.readers, s.calls)
    && TurnsOk(s.turns) && RoutesOk(s.readers, s.turns)
  }

  /** Everyone who waits has been told why: each call once and for all, each turn where its channel had room. */
  ghost predicate Told(s: Client, t: Client, reason: string) {
    && t.process.cmd == None && t.process.stdin == None && !t.process.initialized
    && t.calls.pending == {}
    && (forall id :: id in s.calls.pending ==> id in t.calls.replies && t.calls.replies[id] == [Failed(reason)])
    && (forall id :: id in s.calls.replies && id !in s.calls.pending ==>
          id in t.calls.replies && t.calls.replies[id] == s.calls.replies[id])
    && |t.turns.channels| == |s.turns.channels| && t.turns.watchers == s.turns.watchers
    && (forall c :: 0 <= c < |s.turns.channels| && c !in s.turns.watchers.Values ==> t.turns.channels[c] == s.turns.channels[c])
    && (forall key :: key in s.turns.watchers ==>
          var c := s.turns.watchers[key];
          && c < |s.turns.channels|
          && t.turns.channels[c].log == s.turns.channels[c].log
             + (if |s.turns.channels[c].log| - s.turns.channels[c].read < s.turns.channels[c].capacity then [Failure(reason)] else []))
  }

  /** Failing the client tells everyone. */
  lemma FailTells(s: Client, reason: string)
    requires Inv(s)
    ensures Told(s, Fail(s, reason), reason)
  {
    var t := Fail(s, reason);
    forall key | key in s.turns.watchers
      ensures var c := s.turns.watchers[key];
        && c < |s.turns.channels|
        && t.turns.channels[c].log == s.turns.channels[c].log
           + (if |s.turns.channels[c].log| - s.turns.channels[c].read < s.turns.channels[c].capacity then [Failure(reason)] else [])
    {
      assert s.turns.watchers[key] in s.turns.watchers.Values;
    }
  }

  lemma FailKeepsInv(s: Client, reason: string)
    requires Inv(s)
    ensures Inv(Fail(s, reason))
  {
  }

  lemma IssueKeepsCalls(calls: Calls, readers: map<nat, seq<Send>>, process: nat, written: bool)
    requires CallsOk(calls) && DebtsOk(readers, calls)
    ensures CallsOk(IssueCall(calls, process, written))
    ensures DebtsOk(readers, IssueCall(calls, process, written))
  {
    assert calls.nextID + 1 !in calls.replies;
  }

  lemma RespondKeepsInv(s: Client, reader: nat, id: nat, body: string)
    requires Inv(s) && Enabled(s, Respond(reader, id, body))
    ensures Inv(Step(s, Respond(reader, id, body)))
  {
    var t := Step(s, Respond(reader, id, body));
    assert forall g :: g != reader ==> Debt(t.readers, g) == Debt(s.readers, g);
  }

  lemma OweTurnsKeepsInv(s: Client, reader: nat, sends: seq<Send>)
    requires Inv(s) && Idle(s, reader)
    requires forall i :: 0 <= i < |sends| ==> sends[i].ToTurn? && sends[i].channel < |s.turns.channels|
    ensures Inv(Owe(s, reader, sends))
  {
    var t := Owe(s, reader, sends);
    assert forall g :: Debt(t.readers, g) == Debt(s.readers, g);
  }

  lemma PayCallKeepsInv(s: Client, reader: nat)
    requires Inv(s) && Debt(s.readers, reader).Some? && CanSend(s, s.readers[reader][0])
    ensures Inv(Perform(s, reader))
  {
    var t := Perform(s, reader);
    assert t.readers[reader] == [];
    assert forall g :: g != reader ==> Debt(t.readers, g) == Debt(s.readers, g);
  }

  lemma PayTurnKeepsInv(s: Client, reader: nat)
    requires Inv(s) && reader in s.readers && s.readers[reader] != []
    requires s.readers[reader][0].ToTurn? && CanSend(s, s.readers[reader][0])
    ensures Inv(Perform(s, reader))
  {
    var t := Perform(s, reader);
    assert forall i :: 0 <= i < |t.readers[reader]| ==> t.readers[reader][i] == s.readers[reader][i + 1];
    assert forall g :: Debt(t.readers, g) == Debt(s.readers, g);
  }

  lemma LaunchKeepsInv(s: Client)
    requires Inv(s) && s.process.stdin.None?
    ensures Inv(Launch(s))
  {
    assert forall g :: Debt(Launch(s).readers, g) == Debt(s.readers, g);
  }

  lemma RegisterKeepsTurns(turns: Turns, key: TurnKey)
    requires TurnsOk(turns)
    ensures TurnsOk(RegisterTurn(turns, key))
  {
    var t := RegisterTurn(turns, key);
    assert forall c :: 0 <= c < |turns.channels| ==> t.channels[c] == turns.channels[c];
  }

  lemma UnregisterKeepsTurns(turns: Turns, key: TurnKey)
    requires TurnsOk(turns)
    ensures TurnsOk(UnregisterTurn(turns, key))
  {
  }

  lemma BufferKeepsTurns(turns: Turns, key: TurnKey, note: Note)
    requires TurnsOk(turns) && key !in turns.watchers
    ensures TurnsOk(Buffer(turns, key, note))
  {
  }

  lemma ExitKeepsInv(s: Client, reader: nat)
    requires Inv(s)
    ensures Inv(Exit(s, reader))
  {
    var t := s.(readers := s.readers - {reader});
    assert forall g :: Debt(t.readers, g).Some? ==> Debt(t.readers, g) == Debt(s.readers, g);
    FailKeepsInv(t, "stream ended");
  }

  lemma ExitTells(s: Client, reader: nat)
    requires Inv(s)
    ensures s.process.cmd == Some(reader) ==> Told(s, Exit(s, reader), "stream ended")
  {
    if s.process.cmd == Some(reader) {
      ExitKeepsInv(s, reader);
      FailTells(s, "stream ended");
    }
  }

  /** These sends take the note to every watched turn, once to each, and to nobody else. */
  ghost predicate Broadcasts(watchers: map<TurnKey, nat>, sends: seq<Send>, note: Note) {
    && Distinct(sends)
    && (forall i :: 0 <= i < |sends| ==> sends[i].ToTurn? && sends[i].note == note && sends[i].channel in watchers.Values)
    && (forall key :: key in watchers ==> ToTurn(watchers[key], note) in sends)
  }

  lemma OrderBroadcasts(turns: Turns, order: seq<nat>, note: Note)
    requires RightOrder(turns, order)
    ensures Broadcasts(turns.watchers, ToAll(order, note), note)
    ensures order == [] <==> turns.watchers == map[]
  {
    var sends := ToAll(order, note);
    forall i | 0 <= i < |sends| ensures sends[i].channel in turns.watchers.Values { assert Watched(turns, order[i]); }
    forall key | key in turns.watchers ensures ToTurn(turns.watchers[key], note) in sends {
      var i :| 0 <= i < |order| && order[i] == turns.watchers[key];
      assert sends[i] == ToTurn(turns.watchers[key], note);
    }
    assert forall key :: key in turns.watchers ==> turns.watchers[key] in order;
    if order != [] { assert Watched(turns, order[0]); }
  }

  lemma ReaderStepKeepsInv(s: Client, a: Action)
    requires Inv(s) && Enabled(s, a)
    requires a.Respond? || a.Notify? || a.Broadcast? || a.AnnounceThread? || a.Deliver? || a.ReaderExit?
    ensures Inv(Step(s, a))
  {
    match a
    case Respond(reader, id, body) => RespondKeepsInv(s, reader, id, body);
    case Notify(reader, key, body) =>
      if key in s.turns.watchers {
        OweTurnsKeepsInv(s, reader, Routed(s.turns, key, body));
      } else {
        BufferKeepsTurns(s.turns, key, Keyed(body));
      }
    case Broadcast(reader, body, order) =>
      if order != [] {
        OweTurnsKeepsInv(s, reader, ToAll(order, Account(body)));
      }
    case AnnounceThread(reader, _, body, pick) =>
      if pick.Some? {
        OweTurnsKeepsInv(s, reader, [ToTurn(s.turns.watchers[pick.value], ThreadStarted(body))]);
      }
    case Deliver(reader) =>
      if s.readers[reader][0].ToCall? { PayCallKeepsInv(s, reader); } else { PayTurnKeepsInv(s, reader); }
    case ReaderExit(reader) => ExitKeepsInv(s, reader);
  }

  lemma StepKeepsInv(s: Client, a: Action)
    requires Inv(s) && Enabled(s, a)
    ensures Inv(Step(s, a))
  {
    match a
    case Start => LaunchKeepsInv(s);
    case Issue(written) =>
      if s.process.stdin.Some? { IssueKeepsCalls(s.calls, s.readers, s.process.stdin.value, written); }
    case Cancel(id) =>
    case MarkInitialized(written) =>
    case Reset => FailKeepsInv(s, "connection reset");
    case Receive(channel) =>
    case Register(key) => RegisterKeepsTurns(s.turns, key);
    case Unregister(key) => UnregisterKeepsTurns(s.turns, key);
    case _ => ReaderStepKeepsInv(s, a);
  }

  lemma {:induction false} EveryRunKeepsInv(run: seq<Action>)
    requires Exec(run).Some?
    ensures Inv(Exec(run).value)
  {
    if run != [] {
      EveryRunKeepsInv(run[..|run| - 1]);
      StepKeepsInv(Exec(run[..|run| - 1]).value, run[|run| - 1]);
    }
  }
}
