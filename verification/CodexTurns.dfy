/** What every run of the client guarantees to a turn: which notifications its channel carries, and in which order. */
module CodexTurns {
  import opened Seqs
  import opened CodexProtocol
  import opened CodexRuns

  /** The keyed notes of a log, in order. */
  function KeyedOf(log: seq<Note>): seq<Note> {
    if log == [] then []
    else KeyedOf(log[..|log| - 1]) + (if log[|log| - 1].Keyed? then [log[|log| - 1]] else [])
  }

  /** The keyed notes among some sends to one channel, in order. */
  function KeyedTo(sends: seq<Send>, channel: nat): seq<Note> {
    if sends == [] then []
    else
      (if sends[0].ToTurn? && sends[0].channel == channel && sends[0].note.Keyed? then [sends[0].note] else [])
      + KeyedTo(sends[1..], channel)
  }

  function OwedKeyed(readers: map<nat, seq<Send>>, reader: nat, channel: nat): seq<Note> {
    if reader in readers then KeyedTo(readers[reader], channel) else []
  }

  /** Whether key has a watcher, as the run's registrations tell it. */
  predicate Registered(run: seq<Action>, key: TurnKey) {
    run != [] &&
    match Last(run)
    case Register(k) => k == key || Registered(Front(run), key)
    case Unregister(k) => k != key && Registered(Front(run), key)
    case _ => Registered(Front(run), key)
  }

  /** Notifications for key since its turn was last registered or taken away, in arrival order. */
  function Since(run: seq<Action>, key: TurnKey): seq<Note> {
    if run == [] then []
    else match Last(run)
      case Register(k) => if k == key then [] else Since(Front(run), key)
      case Unregister(k) => if k == key && Registered(Front(run), key) then [] else Since(Front(run), key)
      case Notify(_, k, body) => Since(Front(run), key) + (if k == key then [Keyed(body)] else [])
      case _ => Since(Front(run), key)
  }

  /** What had arrived for key, and was still kept, when its turn was last registered. */
  function Backlog(run: seq<Action>, key: TurnKey): seq<Note> {
    if run == [] then []
    else if Last(run) != Register(key) then Backlog(Front(run), key)
    else if Registered(Front(run), key) then []
    else LastN(Since(Front(run), key), 256)
  }

  /**
   * The readers about to put a keyed note on a channel may be joined by one more
   * with this note: none of them holds a different one.
   */
  ghost predicate MayDispatch(s: Client, key: TurnKey, note: Note) {
    key in s.turns.watchers ==> forall g :: OwedKeyed(s.readers, g, s.turns.watchers[key]) <= [note]
  }

  /** Since the last registration of key, nothing was dispatched for it while a reader still held a different note for it. */
  ghost predicate Guarded(run: seq<Action>, key: TurnKey) {
    run == [] ||
    match Last(run)
    case Register(k) => k == key || Guarded(Front(run), key)
    case Notify(_, k, body) =>
      && Guarded(Front(run), key)
      && (k == key && Exec(Front(run)).Some? ==> MayDispatch(Exec(Front(run)).value, key, Keyed(body)))
    case _ => Guarded(Front(run), key)
  }

  lemma {:induction false} KeyedOfPush(log: seq<Note>, note: Note)
    ensures KeyedOf(log + [note]) == KeyedOf(log) + (if note.Keyed? then [note] else [])
  {
    assert (log + [note])[..|log|] == log;
  }

  lemma {:induction false} KeyedOfReplay(first: seq<Note>, held: seq<Note>)
    requires forall i :: 0 <= i < |first| ==> !first[i].Keyed?
    requires forall i :: 0 <= i < |held| ==> held[i].Keyed?
    ensures KeyedOf(first + held) == held
  {
    if held != [] {
      var shorter := held[..|held| - 1];
      KeyedOfReplay(first, shorter);
      assert first + held == (first + shorter) + [held[|held| - 1]];
      KeyedOfPush(first + shorter, held[|held| - 1]);
    } else if first != [] {
      var shorter := first[..|first| - 1];
      KeyedOfReplay(shorter, []);
      assert first + held == (shorter + []) + [first[|first| - 1]];
      KeyedOfPush(shorter + [], first[|first| - 1]);
    }
  }

  lemma {:induction false} NoneKeyed(sends: seq<Send>, channel: nat)
    requires forall i :: 0 <= i < |sends| && sends[i].ToTurn? ==>
      sends[i].channel != channel || !sends[i].note.Keyed?
    ensures KeyedTo(sends, channel) == []
  {
    if sends != [] { NoneKeyed(sends[1..], channel); }
  }

  // -------------------------------------------- what is there and what is owed

  /** The readers that hold this keyed note for a channel. */
  function Owers(readers: map<nat, seq<Send>>, channel: nat, note: Note): set<nat> {
    set g | g in readers && OwedKeyed(readers, g, channel) == [note]
  }

  /**
   * Nothing is lost and nothing is there twice: each expected note is on the
   * channel or held by a reader, each as often as it is expected, and no reader
   * holds more than one.
   */
  ghost predicate Balanced(readers: map<nat, seq<Send>>, channel: nat, carried: seq<Note>, expected: seq<Note>) {
    && (forall g :: |OwedKeyed(readers, g, channel)| <= 1)
    && (forall x :: multiset(carried)[x] + |Owers(readers, channel, x)| == multiset(expected)[x])
  }

  /** The channel has carried the expected notes in order, and those to come are all the same. */
  predicate InStep(carried: seq<Note>, expected: seq<Note>) {
    carried <= expected && forall i :: |carried| <= i < |expected| ==> expected[i] == expected[|carried|]
  }

  lemma SameDebtsBalance(before: map<nat, seq<Send>>, after: map<nat, seq<Send>>, channel: nat, carried: seq<Note>, expected: seq<Note>)
    requires Balanced(before, channel, carried, expected)
    requires forall g :: OwedKeyed(after, g, channel) == OwedKeyed(before, g, channel)
    ensures Balanced(after, channel, carried, expected)
  {
    forall x ensures Owers(after, channel, x) == Owers(before, channel, x) {
      forall g ensures g in Owers(after, channel, x) <==> g in Owers(before, channel, x) {
        assert OwedKeyed(after, g, channel) == OwedKeyed(before, g, channel);
      }
    }
  }

  /** One reader more holds a note, and the others hold what they held. */
  lemma OneMoreOwes(before: map<nat, seq<Send>>, after: map<nat, seq<Send>>, channel: nat, actor: nat, note: Note, x: Note)
    requires OwedKeyed(before, actor, channel) == [] && OwedKeyed(after, actor, channel) == [note]
    requires forall g :: g != actor ==> OwedKeyed(after, g, channel) == OwedKeyed(before, g, channel)
    ensures |Owers(after, channel, x)| == |Owers(before, channel, x)| + if x == note then 1 else 0
  {
    assert actor !in Owers(before, channel, x);
    assert actor in Owers(after, channel, x) <==> x == note;
    assert Owers(after, channel, x) == Owers(before, channel, x) + if x == note then {actor} else {};
  }

  lemma OwingBalances(before: map<nat, seq<Send>>, after: map<nat, seq<Send>>, channel: nat, actor: nat, note: Note,
                      carried: seq<Note>, expected: seq<Note>)
    requires Balanced(before, channel, carried, expected)
    requires OwedKeyed(before, actor, channel) == [] && OwedKeyed(after, actor, channel) == [note]
    requires forall g :: g != actor ==> OwedKeyed(after, g, channel) == OwedKeyed(before, g, channel)
    ensures Balanced(after, channel, carried, expected + [note])
  {
    forall x ensures multiset(carried)[x] + |Owers(after, channel, x)| == multiset(expected + [note])[x] {
      OneMoreOwes(before, after, channel, actor, note, x);
      assert multiset(carried)[x] + |Owers(before, channel, x)| == multiset(expected)[x];
    }
  }

  lemma PayingBalances(before: map<nat, seq<Send>>, after: map<nat, seq<Send>>, channel: nat, actor: nat, note: Note,
                       carried: seq<Note>, expected: seq<Note>)
    requires Balanced(before, channel, carried, expected)
    requires OwedKeyed(before, actor, channel) == [note] && OwedKeyed(after, actor, channel) == []
    requires forall g :: g != actor ==> OwedKeyed(after, g, channel) == OwedKeyed(before, g, channel)
    ensures Balanced(after, channel, carried + [note], expected)
  {
    forall x ensures multiset(carried + [note])[x] + |Owers(after, channel, x)| == multiset(expected)[x] {
      OneMoreOwes(after, before, channel, actor, note, x);
      assert multiset(carried)[x] + |Owers(before, channel, x)| == multiset(expected)[x];
    }
  }

  /** What is still to come is held by somebody, and what somebody holds is still to come. */
  lemma RestIsOwed(readers: map<nat, seq<Send>>, channel: nat, carried: seq<Note>, expected: seq<Note>, x: Note)
    requires Balanced(readers, channel, carried, expected) && carried <= expected
    ensures x in expected[|carried|..] <==> exists g :: g in Owers(readers, channel, x)
  {
    var rest := expected[|carried|..];
    assert expected == carried + rest;
    assert multiset(expected) == multiset(carried) + multiset(rest);
    assert |Owers(readers, channel, x)| == multiset(rest)[x];
    if x in rest {
      assert |Owers(readers, channel, x)| > 0;
      var g :| g in Owers(readers, channel, x);
    }
  }

  lemma OwingKeepsStep(readers: map<nat, seq<Send>>, channel: nat, note: Note, carried: seq<Note>, expected: seq<Note>)
    requires Balanced(readers, channel, carried, expected) && InStep(carried, expected)
    requires forall g :: OwedKeyed(readers, g, channel) <= [note]
    ensures InStep(carried, expected + [note])
  {
    forall i | |carried| <= i < |expected| ensures expected[i] == note {
      assert expected[|carried|..][i - |carried|] == expected[i];
      RestIsOwed(readers, channel, carried, expected, expected[i]);
      var g :| g in Owers(readers, channel, expected[i]);
      assert [expected[i]] <= [note] && [expected[i]][0] == [note][0];
    }
  }

  lemma PayingKeepsStep(readers: map<nat, seq<Send>>, channel: nat, actor: nat, note: Note, carried: seq<Note>, expected: seq<Note>)
    requires Balanced(readers, channel, carried, expected) && InStep(carried, expected)
    requires OwedKeyed(readers, actor, channel) == [note]
    ensures InStep(carried + [note], expected)
  {
    assert actor in Owers(readers, channel, note);
    RestIsOwed(readers, channel, carried, expected, note);
    var rest := expected[|carried|..];
    var j :| 0 <= j < |rest| && rest[j] == note;
    assert expected[|carried| + j] == note && expected[|carried|] == note;
    assert expected[..|carried| + 1] == carried + [note];
  }

  // ------------------------------------------------------- over whole runs

  /** What happened to key so far in a run. */
  datatype History = History(registered: bool, since: seq<Note>, backlog: seq<Note>, guarded: bool)

  ghost function HistoryOf(run: seq<Action>, key: TurnKey): History {
    History(Registered(run, key), Since(run, key), Backlog(run, key), Guarded(run, key))
  }

  function Carried(turns: Turns, channel: nat): seq<Note> {
    if channel < |turns.channels| then KeyedOf(turns.channels[channel].log) else []
  }

  ghost predicate Accounted(s: Client, key: TurnKey, h: History) {
    && (h.registered <==> key in s.turns.watchers)
    && (forall i :: 0 <= i < |h.since| ==> h.since[i].Keyed?)
    && (key !in s.turns.watchers ==> Held(s.turns, key) == LastN(h.since, MAX_BACKLOG))
    && (key in s.turns.watchers ==>
          var c := s.turns.watchers[key];
          && c < |s.turns.channels|
          && Balanced(s.readers, c, Carried(s.turns, c), h.backlog + h.since)
          && (h.guarded ==> InStep(Carried(s.turns, c), h.backlog + h.since)))
  }

  /** A step that leaves this turn's watcher, backlog, keyed notes and debts alone. */
  lemma AsideKeepsAccount(s: Client, t: Client, key: TurnKey, h: History)
    requires Accounted(s, key, h)
    requires key in t.turns.watchers <==> key in s.turns.watchers
    requires key !in s.turns.watchers ==> Held(t.turns, key) == Held(s.turns, key)
    requires key in s.turns.watchers ==>
      var c := s.turns.watchers[key];
      && t.turns.watchers[key] == c && c < |t.turns.channels| && Carried(t.turns, c) == Carried(s.turns, c)
      && forall g :: OwedKeyed(t.readers, g, c) == OwedKeyed(s.readers, g, c)
    ensures Accounted(t, key, h)
  {
    if key in s.turns.watchers {
      var c := s.turns.watchers[key];
      SameDebtsBalance(s.readers, t.readers, c, Carried(s.turns, c), h.backlog + h.since);
    }
  }

  /** A reader takes on sends none of which is a keyed note for this turn. */
  lemma OweKeepsAccount(s: Client, t: Client, key: TurnKey, h: History, actor: nat, sends: seq<Send>)
    requires Accounted(s, key, h) && Idle(s, actor)
    requires t.turns == s.turns && t.readers == s.readers[actor := sends]
    requires key in s.turns.watchers ==> forall i :: 0 <= i < |sends| && sends[i].ToTurn? ==>
      sends[i].channel != s.turns.watchers[key] || !sends[i].note.Keyed?
    ensures Accounted(t, key, h)
  {
    if key in s.turns.watchers {
      var c := s.turns.watchers[key];
      NoneKeyed(sends, c);
      forall g ensures OwedKeyed(t.readers, g, c) == OwedKeyed(s.readers, g, c) {}
    }
    AsideKeepsAccount(s, t, key, h);
  }

  lemma LaunchKeepsAccount(s: Client, key: TurnKey, h: History)
    requires ProcessOk(s) && Accounted(s, key, h)
    ensures Accounted(Launch(s), key, h)
  {
    assert s.process.starts !in s.readers;
    assert forall g, c :: OwedKeyed(Launch(s).readers, g, c) == OwedKeyed(s.readers, g, c);
    AsideKeepsAccount(s, Launch(s), key, h);
  }

  lemma FailKeepsCarried(turns: Turns, reason: string, c: nat)
    ensures Carried(FailTurns(turns, reason), c) == Carried(turns, c)
  {
    if c < |turns.channels| {
      KeyedOfPush(turns.channels[c].log, Failure(reason));
      assert KeyedOf(turns.channels[c].log) + [] == KeyedOf(turns.channels[c].log);
    }
  }

  lemma FailKeepsAccount(s: Client, key: TurnKey, h: History, reason: string)
    requires Accounted(s, key, h)
    ensures Accounted(Fail(s, reason), key, h)
  {
    if key in s.turns.watchers { FailKeepsCarried(s.turns, reason, s.turns.watchers[key]); }
    AsideKeepsAccount(s, Fail(s, reason), key, h);
  }

  lemma ExitKeepsAccount(s: Client, key: TurnKey, h: History, r: nat)
    requires Accounted(s, key, h) && Idle(s, r)
    ensures Accounted(Exit(s, r), key, h)
  {
    var t := s.(readers := s.readers - {r});
    assert forall g, c :: OwedKeyed(t.readers, g, c) == OwedKeyed(s.readers, g, c);
    AsideKeepsAccount(s, t, key, h);
    FailKeepsAccount(t, key, h, "stream ended");
  }

  lemma ReceiveKeepsAccount(s: Client, key: TurnKey, h: History, channel: nat)
    requires Accounted(s, key, h) && channel < |s.turns.channels|
    ensures Accounted(s.(turns := TakeNote(s.turns, channel)), key, h)
  {
    AsideKeepsAccount(s, s.(turns := TakeNote(s.turns, channel)), key, h);
  }

  lemma RouteKeepsAccount(s: Client, key: TurnKey, h: History, actor: nat, note: Note)
    requires Accounted(s, key, h) && Idle(s, actor) && key in s.turns.watchers && note.Keyed?
    ensures Accounted(Owe(s, actor, [ToTurn(s.turns.watchers[key], note)]), key,
                      h.(since := h.since + [note], guarded := h.guarded && MayDispatch(s, key, note)))
  {
    var c := s.turns.watchers[key];
    var t := Owe(s, actor, [ToTurn(c, note)]);
    var carried, expected := Carried(s.turns, c), h.backlog + h.since;
    assert KeyedTo(t.readers[actor], c) == [note] + KeyedTo([], c);
    assert forall g :: g != actor ==> OwedKeyed(t.readers, g, c) == OwedKeyed(s.readers, g, c);
    Assoc(h.backlog, h.since, [note]);
    OwingBalances(s.readers, t.readers, c, actor, note, carried, expected);
    if h.guarded && MayDispatch(s, key, note) { OwingKeepsStep(s.readers, c, note, carried, expected); }
  }

  /** A notification nobody watches is held back. */
  lemma HoldKeepsAccount(s: Client, key: TurnKey, h: History, note: Note)
    requires Accounted(s, key, h) && key !in s.turns.watchers && note.Keyed?
    ensures Accounted(s.(turns := Buffer(s.turns, key, note)), key, h.(since := h.since + [note]))
  {
    LastNAppend(h.since, [note], MAX_BACKLOG);
  }

  lemma NotifyKeepsAccount(s: Client, key: TurnKey, h: History, actor: nat, k: TurnKey, body: string)
    requires Accounted(s, key, h) && TurnsOk(s.turns) && Idle(s, actor)
    ensures Accounted(Step(s, Notify(actor, k, body)), key,
                      h.(since := h.since + (if k == key then [Keyed(body)] else []),
                         guarded := h.guarded && (k == key ==> MayDispatch(s, key, Keyed(body)))))
  {
    assert h.since + [] == h.since;
    var t := Step(s, Notify(actor, k, body));
    if k == key {
      if key in s.turns.watchers { RouteKeepsAccount(s, key, h, actor, Keyed(body)); } else { HoldKeepsAccount(s, key, h, Keyed(body)); }
    } else if k in s.turns.watchers {
      OweKeepsAccount(s, t, key, h, actor, Routed(s.turns, k, body));
    } else {
      AsideKeepsAccount(s, t, key, h);
    }
  }

  /** Performing a send: either it is this turn's keyed note, or nothing about the turn changes. */
  lemma DeliverKeepsAccount(s: Client, key: TurnKey, h: History, actor: nat)
    requires Accounted(s, key, h) && Enabled(s, Deliver(actor))
    ensures Accounted(Perform(s, actor), key, h)
  {
    var t, d := Perform(s, actor), s.readers[actor][0];
    if key in s.turns.watchers {
      var c := s.turns.watchers[key];
      assert forall g :: g != actor ==> OwedKeyed(t.readers, g, c) == OwedKeyed(s.readers, g, c);
      PaidOff(s, actor, c);
      if d.ToTurn? && d.channel == c && d.note.Keyed? {
        assert |OwedKeyed(s.readers, actor, c)| <= 1;
        PayingBalances(s.readers, t.readers, c, actor, d.note, Carried(s.turns, c), h.backlog + h.since);
        if h.guarded { PayingKeepsStep(s.readers, c, actor, d.note, Carried(s.turns, c), h.backlog + h.since); }
      } else {
        AsideKeepsAccount(s, t, key, h);
      }
    }
  }

  lemma PaidOff(s: Client, actor: nat, c: nat)
    requires Enabled(s, Deliver(actor))
    ensures var t, d := Perform(s, actor), s.readers[actor][0];
      var paid := if d.ToTurn? && d.channel == c && d.note.Keyed? then [d.note] else [];
      && OwedKeyed(s.readers, actor, c) == paid + OwedKeyed(t.readers, actor, c)
      && Carried(t.turns, c) == Carried(s.turns, c) + paid
  {
    var d := s.readers[actor][0];
    assert Carried(s.turns, c) + [] == Carried(s.turns, c);
    if d.ToTurn? && d.channel == c { KeyedOfPush(s.turns.channels[c].log, d.note); }
  }

  /** Nobody holds anything for a channel that is not there yet. */
  lemma NewChannelIsFree(s: Client, c: nat)
    requires RoutesOk(s.readers, s.turns) && c >= |s.turns.channels|
    ensures forall g :: OwedKeyed(s.readers, g, c) == []
    ensures forall x :: Owers(s.readers, c, x) == {}
  {
    forall g ensures OwedKeyed(s.readers, g, c) == [] {
      if g in s.readers { NoneKeyed(s.readers[g], c); }
    }
  }

  lemma RegisterKeepsAccount(s: Client, key: TurnKey, h: History)
    requires TurnsOk(s.turns) && RoutesOk(s.readers, s.turns) && Accounted(s, key, h)
    ensures Accounted(s.(turns := RegisterTurn(s.turns, key)), key,
                      History(true, [], if h.registered then [] else LastN(h.since, MAX_BACKLOG), true))
  {
    var t, c := RegisterTurn(s.turns, key), |s.turns.channels|;
    var backlog := if h.registered then [] else LastN(h.since, MAX_BACKLOG);
    assert Carried(t, c) == backlog == backlog + [] by { ReplayIsCarried(s.turns, key); }
    NewChannelIsBalanced(s, c, backlog);
  }

  lemma NewChannelIsBalanced(s: Client, c: nat, backlog: seq<Note>)
    requires RoutesOk(s.readers, s.turns) && c >= |s.turns.channels|
    ensures Balanced(s.readers, c, backlog, backlog)
  {
    NewChannelIsFree(s, c);
  }

  lemma ReplayIsCarried(turns: Turns, key: TurnKey)
    requires turns.pendingAccount.Some? ==> turns.pendingAccount.value.Account?
    requires forall i :: 0 <= i < |Held(turns, key)| ==> Held(turns, key)[i].Keyed?
    ensures Carried(RegisterTurn(turns, key), |turns.channels|) == Held(turns, key)
  {
    var first := if turns.pendingAccount.Some? then [turns.pendingAccount.value] else [];
    KeyedOfReplay(first, Held(turns, key));
    assert RegisterTurn(turns, key).channels[|turns.channels|].log == first + Held(turns, key);
  }

  lemma OtherTurnKeepsAccount(s: Client, key: TurnKey, h: History, k: TurnKey)
    requires Accounted(s, key, h) && k != key
    ensures Accounted(s.(turns := RegisterTurn(s.turns, k)), key, h)
    ensures Accounted(s.(turns := UnregisterTurn(s.turns, k)), key, h)
  {
    AsideKeepsAccount(s, s.(turns := RegisterTurn(s.turns, k)), key, h);
    AsideKeepsAccount(s, s.(turns := UnregisterTurn(s.turns, k)), key, h);
  }

  lemma ReaderKeepsAccount(s: Client, key: TurnKey, h: History, a: Action)
    requires Inv(s) && Enabled(s, a) && Accounted(s, key, h) && (a.Respond? || a.Broadcast? || a.AnnounceThread?)
    ensures Accounted(Step(s, a), key, h)
  {
    var t := Step(s, a);
    match a
    case Respond(r, id, body) =>
      if id in s.calls.pending { OweKeepsAccount(s, t, key, h, r, [ToCall(id, Response(id, r, body))]); }
    case Broadcast(r, body, order) =>
      if order != [] { OweKeepsAccount(s, t, key, h, r, ToAll(order, Account(body))); } else { AsideKeepsAccount(s, t, key, h); }
    case AnnounceThread(r, _, body, pick) =>
      if pick.Some? { OweKeepsAccount(s, t, key, h, r, [ToTurn(s.turns.watchers[pick.value], ThreadStarted(body))]); }
  }

  lemma TurnKeepsAccount(s: Client, key: TurnKey, h: History, a: Action, n: History)
    requires Inv(s) && Enabled(s, a) && Accounted(s, key, h) && (a.Register? || a.Unregister?)
    requires a.key != key ==> n == h
    requires a == Register(key) ==> n == History(true, [], if h.registered then [] else LastN(h.since, MAX_BACKLOG), true)
    requires a == Unregister(key) ==> n == h.(registered := false, since := if h.registered then [] else h.since)
    ensures Accounted(Step(s, a), key, n)
  {
    if a.key != key {
      OtherTurnKeepsAccount(s, key, h, a.key);
    } else if a.Register? {
      RegisterKeepsAccount(s, key, h);
    }
  }

  lemma PlainKeepsAccount(s: Client, key: TurnKey, h: History, a: Action)
    requires Inv(s) && Enabled(s, a) && Accounted(s, key, h) && !a.Register? && !a.Unregister? && !a.Notify?
    ensures Accounted(Step(s, a), key, h)
  {
    match a
    case Start => LaunchKeepsAccount(s, key, h);
    case Issue(_) => AsideKeepsAccount(s, Step(s, a), key, h);
    case Cancel(_) => AsideKeepsAccount(s, Step(s, a), key, h);
    case MarkInitialized(_) => AsideKeepsAccount(s, Step(s, a), key, h);
    case Receive(c) => ReceiveKeepsAccount(s, key, h, c);
    case Reset => FailKeepsAccount(s, key, h, "connection reset");
    case ReaderExit(r) => ExitKeepsAccount(s, key, h, r);
    case Deliver(r) => DeliverKeepsAccount(s, key, h, r);
    case _ => ReaderKeepsAccount(s, key, h, a);
  }

  lemma StepKeepsAccount(run: seq<Action>, s: Client, key: TurnKey)
    requires run != [] && Exec(Front(run)) == Some(s) && Inv(s) && Enabled(s, Last(run))
    requires Accounted(s, key, HistoryOf(Front(run), key))
    ensures Accounted(Step(s, Last(run)), key, HistoryOf(run, key))
  {
    var a, h := Last(run), HistoryOf(Front(run), key);
    if a.Notify? {
      NotifyKeepsAccount(s, key, h, a.reader, a.key, a.body);
    } else if a.Register? || a.Unregister? {
      TurnKeepsAccount(s, key, h, a, HistoryOf(run, key));
    } else {
      PlainKeepsAccount(s, key, h, a);
    }
  }

  lemma {:induction false} EveryRunIsAccounted(run: seq<Action>, key: TurnKey)
    requires Exec(run).Some?
    ensures Accounted(Exec(run).value, key, HistoryOf(run, key))
  {
    if run != [] {
      EveryRunIsAccounted(Front(run), key);
      EveryRunKeepsInv(Front(run));
      StepKeepsAccount(run, Exec(Front(run)).value, key);
    }
  }

  /** What a registered turn should receive: its backlog, and everything that arrived for it since. */
  function Expected(run: seq<Action>, key: TurnKey): seq<Note> {
    Backlog(run, key) + Since(run, key)
  }

  /**
   * With any number of readers, nothing is lost and nothing comes twice: a
   * registered turn's backlog (at most the last 256 notifications from before
   * the registration) and every later notification are each on its channel or
   * held by a reader, exactly once for each time they arrived.
   */
  lemma {:induction false} NothingIsLostOrDoubled(run: seq<Action>, key: TurnKey)
    requires Exec(run).Some? && Registered(run, key)
    ensures var s := Exec(run).value;
      && key in s.turns.watchers && s.turns.watchers[key] < |s.turns.channels|
      && var c := s.turns.watchers[key];
      && (forall g :: |OwedKeyed(s.readers, g, c)| <= 1)
      && forall x :: multiset(KeyedOf(s.turns.channels[c].log))[x] + |Owers(s.readers, c, x)| == multiset(Expected(run, key))[x]
  {
    EveryRunIsAccounted(run, key);
  }

  /**
   * As long as no notification for the turn is dispatched while a reader still
   * holds a different one for it, the channel carries the expected notes in
   * arrival order, none missing in between; those still held are all the same,
   * so that they cannot change places either.
   */
  lemma {:induction false} TurnReceivesEveryKeyedNote(run: seq<Action>, key: TurnKey)
    requires Exec(run).Some? && Registered(run, key) && Guarded(run, key)
    ensures var s := Exec(run).value;
      && key in s.turns.watchers && s.turns.watchers[key] < |s.turns.channels|
      && var c, expected := s.turns.watchers[key], Expected(run, key);
      var carried := KeyedOf(s.turns.channels[c].log);
      && carried <= expected
      && (forall i :: |carried| <= i < |expected| ==> expected[i] == expected[|carried|])
      && ((forall g :: OwedKeyed(s.readers, g, c) == []) ==> carried == expected)
  {
    EveryRunIsAccounted(run, key);
    var s := Exec(run).value;
    var c, expected := s.turns.watchers[key], Expected(run, key);
    var carried := KeyedOf(s.turns.channels[c].log);
    if |carried| < |expected| {
      assert expected[|carried|..][0] == expected[|carried|];
      RestIsOwed(s.readers, c, carried, expected, expected[|carried|]);
    }
  }

  /** Since the last registration of key, only this reader has dispatched notifications for it. */
  predicate SoleReader(run: seq<Action>, key: TurnKey, reader: nat) {
    run == [] ||
    match Last(run)
    case Register(k) => k == key || SoleReader(Front(run), key, reader)
    case Notify(r, k, _) => (k == key ==> r == reader) && SoleReader(Front(run), key, reader)
    case _ => SoleReader(Front(run), key, reader)
  }

  /** A reader comes to hold a keyed note for a channel only by dispatching it. */
  lemma OnlyDispatchingOwes(s: Client, a: Action, g: nat, c: nat)
    requires Inv(s) && Enabled(s, a) && OwedKeyed(s.readers, g, c) == []
    requires a.Notify? && a.reader == g && a.key in s.turns.watchers ==> s.turns.watchers[a.key] != c
    ensures OwedKeyed(Step(s, a).readers, g, c) == []
  {
    match a
    case Respond(r, id, body) => if id in s.calls.pending { NoneKeyed([ToCall(id, Response(id, r, body))], c); }
    case Broadcast(r, body, order) => NoneKeyed(ToAll(order, Account(body)), c);
    case AnnounceThread(r, _, body, pick) =>
      if pick.Some? { NoneKeyed([ToTurn(s.turns.watchers[pick.value], ThreadStarted(body))], c); }
    case Notify(r, k, body) => if k in s.turns.watchers && s.turns.watchers[k] != c { NoneKeyed(Routed(s.turns, k, body), c); }
    case Deliver(r) => PaidOff(s, r, c);
    case _ =>
  }

  lemma {:induction false} OthersOweNothing(run: seq<Action>, key: TurnKey, reader: nat, g: nat)
    requires Exec(run).Some? && Registered(run, key) && SoleReader(run, key, reader) && g != reader
    ensures key in Exec(run).value.turns.watchers
    ensures OwedKeyed(Exec(run).value.readers, g, Exec(run).value.turns.watchers[key]) == []
  {
    EveryRunIsAccounted(run, key);
    EveryRunIsAccounted(Front(run), key);
    EveryRunKeepsInv(Front(run));
    var s, a := Exec(Front(run)).value, Last(run);
    if a == Register(key) {
      if g in s.readers { NoneKeyed(s.readers[g], |s.turns.channels|); }
    } else {
      OthersOweNothing(Front(run), key, reader, g);
      var c := s.turns.watchers[key];
      assert a.Notify? && a.key in s.turns.watchers && s.turns.watchers[a.key] == c ==> a.key == key;
      OnlyDispatchingOwes(s, a, g, c);
    }
  }

  /** One reader for the turn is enough: it dispatches the next notification only after it has put the last one there. */
  lemma {:induction false} SoleReaderIsGuarded(run: seq<Action>, key: TurnKey, reader: nat)
    requires Exec(run).Some? && SoleReader(run, key, reader)
    ensures Guarded(run, key)
  {
    if run != [] && Last(run) != Register(key) {
      SoleReaderIsGuarded(Front(run), key, reader);
      if Last(run).Notify? && Last(run).key == key {
        var s := Exec(Front(run)).value;
        EveryRunIsAccounted(Front(run), key);
        if key in s.turns.watchers {
          forall g ensures OwedKeyed(s.readers, g, s.turns.watchers[key]) == [] {
            if g != reader { OthersOweNothing(Front(run), key, reader, g); }
          }
        }
      }
    }
  }

  // ------------------------------------------------ the condition is exact

  /** Readers finish sending and consumers receive; nothing new is read. */
  predicate Drains(more: seq<Action>) {
    forall i :: 0 <= i < |more| ==> more[i].Deliver? || more[i].Receive?
  }

  /** What a turn's channel has carried by the end of a run is how its notifications arrived. */
  ghost predicate InOrder(run: seq<Action>, key: TurnKey) {
    Exec(run).Some? && Registered(run, key) && key in Exec(run).value.turns.watchers ==>
      Carried(Exec(run).value.turns, Exec(run).value.turns.watchers[key]) <= Expected(run, key)
  }

  ghost predicate AlwaysGuarded(run: seq<Action>, key: TurnKey) {
    forall n :: 0 <= n <= |run| ==> Guarded(run[..n], key)
  }

  /** At every moment of a run, and however the readers then finish their sends, the order is right. */
  ghost predicate AlwaysInOrder(run: seq<Action>, key: TurnKey) {
    forall n, more :: 0 <= n <= |run| && Drains(more) ==> InOrder(run[..n] + more, key)
  }

  lemma {:induction false} DrainingChangesNoHistory(run: seq<Action>, more: seq<Action>, key: TurnKey)
    requires Drains(more)
    ensures HistoryOf(run + more, key) == HistoryOf(run, key)
  {
    if more == [] {
      assert run + more == run;
    } else {
      assert Front(run + more) == run + more[..|more| - 1] && Last(run + more) == more[|more| - 1];
      DrainingChangesNoHistory(run, more[..|more| - 1], key);
    }
  }

  /** A consumer that receives what is there makes room. */
  lemma {:induction false} MakeRoom(run: seq<Action>, channel: nat) returns (more: seq<Action>)
    requires Exec(run).Some? && channel < |Exec(run).value.turns.channels|
    ensures Drains(more) && Exec(run + more).Some?
    ensures var s, t := Exec(run).value, Exec(run + more).value;
      && t.readers == s.readers && t.turns.watchers == s.turns.watchers && |t.turns.channels| == |s.turns.channels|
      && t.turns.channels[channel].log == s.turns.channels[channel].log && t.turns.channels[channel].HasRoom()
    decreases |Exec(run).value.turns.channels[channel].log| - Exec(run).value.turns.channels[channel].read
  {
    EveryRunKeepsInv(run);
    var ch := Exec(run).value.turns.channels[channel];
    if ch.HasRoom() {
      more := [];
      assert run + more == run;
    } else {
      ExecPush(run, Receive(channel));
      var rest := MakeRoom(run + [Receive(channel)], channel);
      more := [Receive(channel)] + rest;
      Assoc(run, [Receive(channel)], rest);
    }
  }

  /** Where the next expected note is another one, this note comes too early. */
  lemma OvertakenIsNext(s: Client, key: TurnKey, h: History, note: Note) returns (other: Note)
    requires Accounted(s, key, h) && h.guarded && !MayDispatch(s, key, note)
    ensures key in s.turns.watchers && other != note
    ensures var carried, expected := Carried(s.turns, s.turns.watchers[key]), h.backlog + h.since;
      |carried| < |expected| && expected[|carried|] == other
  {
    var c := s.turns.watchers[key];
    var carried, expected := Carried(s.turns, c), h.backlog + h.since;
    var g :| !(OwedKeyed(s.readers, g, c) <= [note]);
    other := OwedKeyed(s.readers, g, c)[0];
    assert OwedKeyed(s.readers, g, c) == [other];
    assert g in Owers(s.readers, c, other);
    RestIsOwed(s.readers, c, carried, expected, other);
    var j :| 0 <= j < |expected[|carried|..]| && expected[|carried|..][j] == other;
    assert expected[|carried| + j] == other && expected[|carried|] == other;
  }

  /** The later reader sends at once. */
  lemma SendFirst(run: seq<Action>, key: TurnKey, actor: nat, c: nat, note: Note) returns (more: seq<Action>)
    requires Exec(run).Some? && c < |Exec(run).value.turns.channels| && actor in Exec(run).value.readers
    requires Exec(run).value.readers[actor] == [ToTurn(c, note)] && note.Keyed?
    ensures Drains(more) && Exec(run + more).Some?
    ensures Exec(run + more).value.turns.watchers == Exec(run).value.turns.watchers
    ensures Carried(Exec(run + more).value.turns, c) == Carried(Exec(run).value.turns, c) + [note]
  {
    var room := MakeRoom(run, c);
    var t := Exec(run + room).value;
    ExecPush(run + room, Deliver(actor));
    more := room + [Deliver(actor)];
    Assoc(run, room, [Deliver(actor)]);
    KeyedOfPush(t.turns.channels[c].log, note);
  }

  /**
   * A notification dispatched while another reader holds a different one for the
   * turn can overtake it: the consumer makes room, and the later reader sends first.
   */
  lemma OvertakingReorders(run: seq<Action>, key: TurnKey, actor: nat, body: string) returns (more: seq<Action>)
    requires Exec(run).Some? && Guarded(run, key) && Enabled(Exec(run).value, Notify(actor, key, body))
    requires !MayDispatch(Exec(run).value, key, Keyed(body))
    ensures Drains(more) && !InOrder(run + [Notify(actor, key, body)] + more, key)
  {
    var s, a, note := Exec(run).value, Notify(actor, key, body), Keyed(body);
    var c, next := s.turns.watchers[key], run + [a];
    EveryRunIsAccounted(run, key);
    var other := OvertakenIsNext(s, key, HistoryOf(run, key), note);
    var carried, expected := Carried(s.turns, c), Expected(run, key);
    ExecPush(run, a);
    assert Front(next) == run && Last(next) == a;
    more := SendFirst(next, key, actor, c, note);
    DrainingChangesNoHistory(next, more, key);
    assert Expected(next + more, key) == expected + [note] by { Assoc(Backlog(run, key), Since(run, key), [note]); }
    assert (carried + [note])[|carried|] == note && (expected + [note])[|carried|] == other;
  }

  lemma {:induction false} GuardedIsInOrder(run: seq<Action>, key: TurnKey, more: seq<Action>)
    requires Guarded(run, key) && Drains(more)
    ensures InOrder(run + more, key)
  {
    DrainingChangesNoHistory(run, more, key);
    if Exec(run + more).Some? { EveryRunIsAccounted(run + more, key); }
  }

  /** The first dispatch that breaks the guard. */
  lemma {:induction false} FirstUnguarded(run: seq<Action>, key: TurnKey, n: nat) returns (k: nat, actor: nat, body: string)
    requires n <= |run| && !Guarded(run[..n], key) && Exec(run).Some?
    ensures k < n && Guarded(run[..k], key) && Exec(run[..k]).Some? && Enabled(Exec(run[..k]).value, Notify(actor, key, body))
    ensures !MayDispatch(Exec(run[..k]).value, key, Keyed(body)) && run[..k + 1] == run[..k] + [Notify(actor, key, body)]
  {
    assert n > 0;
    var m := n - 1;
    assert run[..n] == run[..m] + [run[m]];
    assert Front(run[..n]) == run[..m] && Last(run[..n]) == run[m];
    assert run == run[..n] + run[n..];
    PrefixRuns(run[..n], run[n..]);
    if Guarded(run[..m], key) {
      k, actor, body := m, run[m].reader, run[m].body;
    } else {
      k, actor, body := FirstUnguarded(run, key, m);
    }
  }

  lemma GuardedRunsAreInOrder(run: seq<Action>, key: TurnKey)
    requires AlwaysGuarded(run, key)
    ensures AlwaysInOrder(run, key)
  {
    forall n, more | 0 <= n <= |run| && Drains(more) ensures InOrder(run[..n] + more, key) {
      GuardedIsInOrder(run[..n], key, more);
    }
  }

  lemma {:induction false} UnguardedRunsReorder(run: seq<Action>, key: TurnKey, n: nat)
    requires Exec(run).Some? && n <= |run| && !Guarded(run[..n], key)
    ensures !AlwaysInOrder(run, key)
  {
    var k, actor, body := FirstUnguarded(run, key, n);
    var more := OvertakingReorders(run[..k], key, actor, body);
    assert !InOrder(run[..k + 1] + more, key);
  }

  /**
   * The guard is exactly what order needs: a turn receives its notifications in
   * arrival order at every moment of a run, however its readers then finish
   * their sends, if and only if none was ever dispatched while a reader still
   * held a different one for the turn.
   */
  lemma {:induction false} OrderHoldsExactly(run: seq<Action>, key: TurnKey)
    requires Exec(run).Some?
    ensures AlwaysGuarded(run, key) <==> AlwaysInOrder(run, key)
  {
    if AlwaysGuarded(run, key) {
      GuardedRunsAreInOrder(run, key);
    } else {
      var n :| 0 <= n <= |run| && !Guarded(run[..n], key);
      UnguardedRunsReorder(run, key, n);
    }
  }

  // ------------------------------------------------------------ the channels

  /** Channels only grow: what a turn was sent first stays first. */
  lemma {:induction false} LogsOnlyGrow(run: seq<Action>, more: seq<Action>, channel: nat)
    requires Exec(run).Some? && channel < |Exec(run).value.turns.channels|
    requires Exec(run + more).Some?
    ensures var c, d := Exec(run).value.turns.channels, Exec(run + more).value.turns.channels;
      && channel < |d|
      && c[channel].log <= d[channel].log
      && c[channel].capacity == d[channel].capacity
  {
    if more == [] {
      assert run + more == run;
    } else {
      assert Front(run + more) == run + more[..|more| - 1];
      PrefixRuns(run + more[..|more| - 1], [Last(run + more)]);
      LogsOnlyGrow(run, more[..|more| - 1], channel);
      StepGrowsLogs(Exec(Front(run + more)).value, Last(run + more));
    }
  }

  lemma StepGrowsLogs(s: Client, a: Action)
    requires Enabled(s, a)
    ensures var c, d := s.turns.channels, Step(s, a).turns.channels;
      && |c| <= |d|
      && forall i :: 0 <= i < |c| ==> c[i].log <= d[i].log && c[i].capacity == d[i].capacity
  {
  }

  /**
   * A turn that registers is replayed the held account event first, then its
   * backlog; the replay fits the new channel, so it cannot block; and nothing
   * that happens later comes before it.
   */
  lemma {:induction false} ReplayComesFirstAndFits(before: seq<Action>, key: TurnKey, more: seq<Action>)
    requires Exec(before + [Register(key)] + more).Some?
    ensures Exec(before).Some?
    ensures var s, t := Exec(before).value.turns, Exec(before + [Register(key)] + more).value.turns;
      var c := |s.channels|;
      && c < |t.channels|
      && Replay(s, key) <= t.channels[c].log
      && |Replay(s, key)| <= t.channels[c].capacity
      && (s.pendingAccount.Some? ==> t.channels[c].log != [] && t.channels[c].log[0] == s.pendingAccount.value)
      && (!Registered(before, key) ==>
            Replay(s, key) == (if s.pendingAccount.Some? then [s.pendingAccount.value] else [])
                              + LastN(Since(before, key), MAX_BACKLOG))
  {
    var run := before + [Register(key)];
    PrefixRuns(run, more);
    assert Front(run) == before;
    LogsOnlyGrow(run, more, |Exec(before).value.turns.channels|);
    EveryRunIsAccounted(before, key);
  }

  // ------------------------------------------------------ a run that reorders

  lemma {:induction false} ExecPush(run: seq<Action>, a: Action)
    requires Exec(run).Some? && Enabled(Exec(run).value, a)
    ensures Exec(run + [a]) == Some(Step(Exec(run).value, a))
  {
    assert (run + [a])[..|run|] == run;
  }

  const TURN: TurnKey := TurnKey("thread", "turn")

  /** A turn is watched, the old reader holds "a" for it, and the process is replaced. */
  const OVERTAKEN: seq<Action> :=
    [] + [Start] + [Register(TURN)] + [Notify(0, TURN, "a")] + [Reset] + [Start] + [Notify(1, TURN, "b")]

  lemma WatchedState() returns (s: Client)
    ensures Exec([] + [Start] + [Register(TURN)] + [Notify(0, TURN, "a")]) == Some(s)
    ensures s.turns.watchers == map[TURN := 0] && s.turns.channels == [TurnChannel(MIN_CAPACITY, [], 0)]
    ensures s.readers == map[0 := [ToTurn(0, Keyed("a"))]]
    ensures s.process.starts == 1
  {
    var r: seq<Action> := [];
    s := INITIAL;
    ExecPush(r, Start);
    r, s := r + [Start], Step(s, Start);
    ExecPush(r, Register(TURN));
    r, s := r + [Register(TURN)], Step(s, Register(TURN));
    assert s.turns.channels == [TurnChannel(MIN_CAPACITY, [], 0)];
    ExecPush(r, Notify(0, TURN, "a"));
    s := Step(s, Notify(0, TURN, "a"));
  }

  lemma OvertakenState() returns (s: Client)
    ensures Exec(OVERTAKEN) == Some(s)
    ensures s.turns.watchers == map[TURN := 0]
    ensures s.turns.channels == [TurnChannel(MIN_CAPACITY, [Failure("connection reset")], 0)]
    ensures s.readers == map[0 := [ToTurn(0, Keyed("a"))], 1 := [ToTurn(0, Keyed("b"))]]
  {
    var r := [] + [Start] + [Register(TURN)] + [Notify(0, TURN, "a")];
    s := WatchedState();
    assert s.turns.watchers[TURN] == 0 && 0 in s.turns.watchers.Values;
    assert s.turns.channels[0].Offer(Failure("connection reset")).log == [Failure("connection reset")];
    ExecPush(r, Reset);
    r, s := r + [Reset], Step(s, Reset);
    assert s.turns.channels == [TurnChannel(MIN_CAPACITY, [Failure("connection reset")], 0)];
    ExecPush(r, Start);
    r, s := r + [Start], Step(s, Start);
    ExecPush(r, Notify(1, TURN, "b"));
    s := Step(s, Notify(1, TURN, "b"));
  }

  /**
   * With two readers alive the order can be lost: the reader of a replaced
   * process may put its notification on the channel after a newer one.
   */
  lemma TwoReadersCanReorder()
    ensures var run := OVERTAKEN + [Deliver(1)] + [Deliver(0)];
      && Exec(run).Some?
      && var s := Exec(run).value;
      && s.turns.channels != []
      && s.turns.channels[0].log == [Failure("connection reset"), Keyed("b"), Keyed("a")]
  {
    var s := OvertakenState();
    ExecPush(OVERTAKEN, Deliver(1));
    var t := Step(s, Deliver(1));
    assert t.turns.channels[0].log == [Failure("connection reset"), Keyed("b")];
    ExecPush(OVERTAKEN + [Deliver(1)], Deliver(0));
  }
}
