/** What a turn shows of its notifications besides the reasoning and the bill: the answer, the items, and how it ends. */
module StreamMessages {
  import opened Seqs
  import opened Text
  import opened StreamTurn
  import opened StreamViews

  /** The events of one kind, in order. */
  function Select(events: seq<Event>, keep: Event -> bool): seq<Event> {
    if events == [] then []
    else (if keep(events[0]) then [events[0]] else []) + Select(events[1..], keep)
  }

  lemma {:induction false} SelectAppend(a: seq<Event>, b: seq<Event>, keep: Event -> bool)
    ensures Select(a + b, keep) == Select(a, keep) + Select(b, keep)
  {
    if a == [] {
      assert a + b == b;
    } else {
      SelectAppend(a[1..], b, keep);
      TailOfConcat(a, b);
      Assoc(if keep(a[0]) then [a[0]] else [], Select(a[1..], keep), Select(b, keep));
    }
  }

  lemma {:induction false} SelectNone(events: seq<Event>, keep: Event -> bool)
    requires forall i :: 0 <= i < |events| ==> !keep(events[i])
    ensures Select(events, keep) == []
  {
    if events != [] { SelectNone(events[1..], keep); }
  }

  lemma {:induction false} SelectAll(events: seq<Event>, keep: Event -> bool)
    requires forall i :: 0 <= i < |events| ==> keep(events[i])
    ensures Select(events, keep) == events
  {
    if events != [] { SelectAll(events[1..], keep); }
  }

  lemma {:induction false} NotesOneByOne(t: Track, notes: seq<Notification>, keep: Event -> bool)
    ensures notes != [] && !Ends(notes[0]) ==>
      Select(Stream(t, notes), keep)
      == Select(Handle(t, notes[0]).events, keep) + Select(Stream(Handle(t, notes[0]).track, notes[1..]), keep)
    ensures notes != [] && Ends(notes[0]) ==> Stream(t, notes) == Handle(t, notes[0]).events
  {
    if notes != [] {
      HandleReasoning(t, notes[0]);
      if !Ends(notes[0]) {
        SelectAppend(Handle(t, notes[0]).events, Stream(Handle(t, notes[0]).track, notes[1..]), keep);
      }
    }
  }

  // --------------------------------------------------------------- the answer

  predicate IsAnswerDelta(e: Event) {
    e.AssistantDelta?
  }

  /** The pieces of the answer: deltas without a phase, or in the final one, before the turn ends. */
  function AnswerPieces(notes: seq<Notification>): seq<Event> {
    if notes == [] || Ends(notes[0]) then []
    else
      (if notes[0].AgentDelta? && notes[0].text != "" && (notes[0].phase == "" || notes[0].phase == "final_answer")
       then [AssistantDelta(notes[0].text)] else [])
      + AnswerPieces(notes[1..])
  }

  /** The answer is streamed piece by piece, each as it came. */
  lemma {:induction false} AnswerIsStreamed(t: Track, notes: seq<Notification>)
    ensures Select(Stream(t, notes), IsAnswerDelta) == AnswerPieces(notes)
    decreases |notes|
  {
    NotesOneByOne(t, notes, IsAnswerDelta);
    if notes != [] {
      var h := Handle(t, notes[0]);
      HandlesAnswers(t, notes[0]);
      if !Ends(notes[0]) { AnswerIsStreamed(h.track, notes[1..]); }
    }
  }

  lemma HandlesAnswers(t: Track, n: Notification)
    ensures Select(Handle(t, n).events, IsAnswerDelta) ==
      if n.AgentDelta? && n.text != "" && (n.phase == "" || n.phase == "final_answer") then [AssistantDelta(n.text)] else []
  {
    var events := Handle(t, n).events;
    if n.AgentDelta? && n.text != "" {
      assert events[1..] == [];
    } else {
      SelectNone(events, IsAnswerDelta);
    }
  }

  // ---------------------------------------------------------------- the items

  predicate IsPassedOn(e: Event) {
    e.Activity? || e.ToolUse? || e.PlanProposed? || e.RateStatus?
  }

  /** What is only passed on: a note's activities, its tool uses, its plan, its rate limits. */
  function PassedOn(n: Notification): seq<Event> {
    match n
    case ItemNote(activities, tools, plan) =>
      seq(|activities|, i requires 0 <= i < |activities| => Activity(activities[i]))
      + seq(|tools|, i requires 0 <= i < |tools| => ToolUse(tools[i]))
      + (if plan.Some? then [PlanProposed(plan.value)] else [])
    case Completed(activities, _) => seq(|activities|, i requires 0 <= i < |activities| => Activity(activities[i]))
    case RateLimits(status) => if status.Some? then [RateStatus(status.value)] else []
    case _ => []
  }

  function AllPassedOn(notes: seq<Notification>): seq<Event> {
    if notes == [] then []
    else PassedOn(notes[0]) + if Ends(notes[0]) then [] else AllPassedOn(notes[1..])
  }

  /** Activities, tool uses, plans and rate limits are passed on in the order they came, up to the end of the turn. */
  lemma {:induction false} ItemsArePassedOn(t: Track, notes: seq<Notification>)
    ensures Select(Stream(t, notes), IsPassedOn) == AllPassedOn(notes)
    decreases |notes|
  {
    NotesOneByOne(t, notes, IsPassedOn);
    if notes != [] {
      HandlesItems(t, notes[0]);
      if Ends(notes[0]) {
        assert PassedOn(notes[0]) + [] == PassedOn(notes[0]);
      } else {
        ItemsArePassedOn(Handle(t, notes[0]).track, notes[1..]);
      }
    }
  }

  lemma HandlesItems(t: Track, n: Notification)
    ensures Select(Handle(t, n).events, IsPassedOn) == PassedOn(n)
  {
    match n
    case ItemNote(activities, tools, plan) =>
      AllOfItemPassesOn(n);
      assert Handle(t, n).events == PassedOn(n);
      SelectAll(PassedOn(n), IsPassedOn);
    case Completed(activities, items) => HandlesLastActivities(t, activities, items);
    case RateLimits(status) => SelectAll(Handle(t, n).events, IsPassedOn);
    case _ => SelectNone(Handle(t, n).events, IsPassedOn);
  }

  lemma AllOfItemPassesOn(n: Notification)
    requires n.ItemNote?
    ensures forall i :: 0 <= i < |PassedOn(n)| ==> IsPassedOn(PassedOn(n)[i])
  {
  }

  lemma HandlesLastActivities(t: Track, activities: seq<string>, items: seq<TurnItem>)
    ensures Select(Handle(t, Completed(activities, items)).events, IsPassedOn) == PassedOn(Completed(activities, items))
  {
    var rest := Closing(t, items);
    CompletionSplits(t, activities, items);
    SelectAppend(Activities(activities), rest, IsPassedOn);
    SelectAll(Activities(activities), IsPassedOn);
    SelectNone(rest, IsPassedOn);
    assert Activities(activities) + [] == Activities(activities) == PassedOn(Completed(activities, items));
  }

  /** What a completed turn emits after its activities. */
  function Closing(t: Track, items: seq<TurnItem>): seq<Event> {
    (if !t.streamedReasoning && WholeReasoning(items) != "" then [ReasoningMessage(WholeReasoning(items))] else [])
    + (if FinalMessage(items) != "" then [AssistantMessage(FinalMessage(items))] else [])
    + [TurnDone]
  }

  lemma CompletionSplits(t: Track, activities: seq<string>, items: seq<TurnItem>)
    ensures Handle(t, Completed(activities, items)).events == Activities(activities) + Closing(t, items)
  {
  }

  // ------------------------------------------------------------ the context

  predicate IsContext(e: Event) {
    e.ContextStatus?
  }

  /** How full the context is, each time the provider says so: its own total, or else input plus output. */
  function Fillings(notes: seq<Notification>): seq<Event> {
    if notes == [] || Ends(notes[0]) then []
    else
      (if notes[0].TokenUsage? && notes[0].window > 0 && notes[0].last.Some? && Filled(notes[0].last.value) > 0
       then [ContextStatus(Filled(notes[0].last.value), notes[0].window)] else [])
      + Fillings(notes[1..])
  }

  function Filled(t: Tokens): int {
    if t.total.Some? && t.total.value > 0 then t.total.value
    else (if t.input.Some? then t.input.value else 0) + (if t.output.Some? then t.output.value else 0)
  }

  lemma {:induction false} ContextIsShown(t: Track, notes: seq<Notification>)
    ensures Select(Stream(t, notes), IsContext) == Fillings(notes)
    decreases |notes|
  {
    NotesOneByOne(t, notes, IsContext);
    if notes != [] {
      HandlesContext(t, notes[0]);
      if !Ends(notes[0]) { ContextIsShown(Handle(t, notes[0]).track, notes[1..]); }
    }
  }

  lemma HandlesContext(t: Track, n: Notification)
    ensures Select(Handle(t, n).events, IsContext) ==
      if n.TokenUsage? && n.window > 0 && n.last.Some? && Filled(n.last.value) > 0
      then [ContextStatus(Filled(n.last.value), n.window)] else []
  {
    var events := Handle(t, n).events;
    if n.TokenUsage? && Context(n.window, n.last) != [] {
      var rest := events[1..];
      SelectNone(rest, IsContext);
      assert events == [events[0]] + rest;
    } else {
      SelectNone(events, IsContext);
    }
  }

  // ------------------------------------------------------------------ the end

  predicate Closes(e: Event) {
    e.AssistantMessage? || e.ReasoningMessage? || e.RateLimited? || e.AuthRequired? || e.TurnDone?
  }

  /** Something to show: an agent's message that is not blank. */
  predicate Message(item: TurnItem) {
    item.kind == "agentMessage" && !Blank(item.text)
  }

  predicate IsFinal(item: TurnItem) {
    Message(item) && item.phase == "final_answer"
  }

  predicate IsWorking(item: TurnItem) {
    Message(item) && item.phase != "" && item.phase != "final_answer"
  }

  /** These positions, in order, are exactly those of the items wanted. */
  ghost predicate Positions(items: seq<TurnItem>, wanted: TurnItem -> bool, at: seq<nat>) {
    && (forall i, j :: 0 <= i < j < |at| ==> at[i] < at[j])
    && (forall k: nat :: k in at <==> k < |items| && wanted(items[k]))
  }

  function TextsAt(items: seq<TurnItem>, at: seq<nat>): seq<string>
    requires forall k :: k in at ==> k < |items|
  {
    seq(|at|, i requires 0 <= i < |at| => assert at[i] in at; items[at[i]].text)
  }

  lemma {:induction false} TextsPush(items: seq<TurnItem>, item: TurnItem, reasoning: bool)
    ensures Texts(items + [item], reasoning) == Texts(items, reasoning) + Texts([item], reasoning)
  {
    if items == [] {
      assert items + [item] == [item];
    } else {
      TailOfConcat(items, [item]);
      TextsPush(items[1..], item, reasoning);
    }
  }

  lemma {:induction false} OneText(item: TurnItem, reasoning: bool)
    ensures Texts([item], reasoning) ==
      if Message(item) && (if reasoning then IsWorking(item) else IsFinal(item)) then [item.text] else []
  {
    assert [item][1..] == [];
  }

  /** There is such a list of positions, and the texts kept are those of the items at them. */
  lemma {:induction false} TextsAreThere(items: seq<TurnItem>, reasoning: bool,
      wanted: TurnItem -> bool) returns (at: seq<nat>)
    requires forall item: TurnItem :: wanted(item) <==> if reasoning then IsWorking(item) else IsFinal(item)
    ensures Positions(items, wanted, at)
    ensures Texts(items, reasoning) == TextsAt(items, at)
  {
    at := [];
    if items != [] {
      var n := |items| - 1;
      var front, item := items[..n], items[n];
      assert items == front + [item];
      var sooner := TextsAreThere(front, reasoning, wanted);
      TextsPush(front, item, reasoning);
      OneText(item, reasoning);
      PositionsPush(front, item, wanted, sooner);
      at := if wanted(item) then sooner + [n] else sooner;
    }
  }

  lemma PositionsPush(front: seq<TurnItem>, item: TurnItem, wanted: TurnItem -> bool, sooner: seq<nat>)
    requires Positions(front, wanted, sooner)
    ensures var items, at := front + [item], if wanted(item) then sooner + [|front|] else sooner;
      && Positions(items, wanted, at)
      && TextsAt(items, at) == TextsAt(front, sooner) + if wanted(item) then [item.text] else []
  {
    var items, at := front + [item], if wanted(item) then sooner + [|front|] else sooner;
    assert forall i :: 0 <= i < |sooner| ==> sooner[i] in sooner;
    forall k: nat ensures k in at <==> k < |items| && wanted(items[k]) {
      InPushed(sooner, |front|, wanted(item), k);
      assert k in sooner <==> k < |front| && wanted(front[k]);
      if k < |front| { assert items[k] == front[k]; }
    }
    TextsPushed(front, item, sooner);
    if wanted(item) { assert TextsAt(items, at) == TextsAt(items, sooner) + [item.text]; }
  }

  lemma InPushed(sooner: seq<nat>, n: nat, push: bool, k: nat)
    ensures k in (if push then sooner + [n] else sooner) <==> k in sooner || (push && k == n)
  {
  }

  lemma TextsPushed(front: seq<TurnItem>, item: TurnItem, at: seq<nat>)
    requires forall k :: k in at ==> k < |front|
    ensures TextsAt(front + [item], at) == TextsAt(front, at)
  {
    assert forall i :: 0 <= i < |at| ==> at[i] in at;
  }

  /** How a turn ends, by its last notification: streamed tells whether reasoning was streamed before. */
  ghost predicate EndsSo(n: Notification, streamed: bool, closing: seq<Event>) {
    match n
    case Broken(reason) => closing == [AssistantMessage(reason)]
    case ErrorNote(kind, text) =>
      closing == [match kind
                  case RateLimitError => RateLimited(text)
                  case AuthError => AuthRequired(text)
                  case OtherError => AssistantMessage(text), TurnDone]
    case Completed(_, items) =>
      exists working, final :: EndsWith(items, streamed, working, final, closing)
    case _ => false
  }

  /** The joined texts of the working messages, unless reasoning was streamed, those of the final ones, and the end. */
  ghost predicate EndsWith(items: seq<TurnItem>, streamed: bool, working: seq<nat>, final: seq<nat>, closing: seq<Event>) {
    && Positions(items, IsWorking, working) && Positions(items, IsFinal, final)
    && closing == (if streamed || working == [] then [] else [ReasoningMessage(Join(TextsAt(items, working), "\n"))])
                  + (if final == [] then [] else [AssistantMessage(Join(TextsAt(items, final), "\n"))])
                  + [TurnDone]
  }

  lemma HandlesTheEnd(t: Track, n: Notification)
    ensures Ends(n) ==> EndsSo(n, t.streamedReasoning, Select(Handle(t, n).events, Closes))
    ensures !Ends(n) ==> Select(Handle(t, n).events, Closes) == []
    ensures Ends(n) ==> Handle(t, n).events != [] && (!n.Broken? ==> Handle(t, n).events[|Handle(t, n).events| - 1] == TurnDone)
  {
    match n
    case Completed(activities, items) => HandlesCompletion(t, activities, items);
    case Broken(reason) => SelectAll(Handle(t, n).events, Closes);
    case ErrorNote(kind, text) => SelectAll(Handle(t, n).events, Closes);
    case _ => SelectNone(Handle(t, n).events, Closes);
  }

  lemma HandlesCompletion(t: Track, activities: seq<string>, items: seq<TurnItem>)
    ensures EndsSo(Completed(activities, items), t.streamedReasoning, Select(Handle(t, Completed(activities, items)).events, Closes))
    ensures Handle(t, Completed(activities, items)).events == Activities(activities) + Closing(t, items)
  {
    CompletionSplits(t, activities, items);
    SelectAppend(Activities(activities), Closing(t, items), Closes);
    SelectNone(Activities(activities), Closes);
    SelectAll(Closing(t, items), Closes);
    assert [] + Closing(t, items) == Closing(t, items);
    ClosingShows(t, items);
  }

  lemma ClosingShows(t: Track, items: seq<TurnItem>)
    ensures exists working, final :: EndsWith(items, t.streamedReasoning, working, final, Closing(t, items))
  {
    var working := TextsAreThere(items, true, IsWorking);
    var final := TextsAreThere(items, false, IsFinal);
    SaysSomething(items, IsWorking, working);
    SaysSomething(items, IsFinal, final);
    assert EndsWith(items, t.streamedReasoning, working, final, Closing(t, items));
  }

  lemma SaysSomething(items: seq<TurnItem>, wanted: TurnItem -> bool, at: seq<nat>)
    requires Positions(items, wanted, at) && forall item: TurnItem :: wanted(item) ==> Message(item)
    ensures Join(TextsAt(items, at), "\n") == "" <==> at == []
  {
    if at != [] {
      assert at[0] in at && Message(items[at[0]]);
      TrimmedIsFixed("");
    }
  }

  predicate StreamsReasoning(notes: seq<Notification>) {
    exists i :: 0 <= i < |notes| && notes[i].AgentDelta? && notes[i].text != ""
      && notes[i].phase != "" && notes[i].phase != "final_answer"
  }

  /**
   * A turn closes once, with its last notification. A completed turn shows the
   * joined texts of its working messages, unless some were streamed, and the
   * joined texts of its final ones, each if there are any, and is done; an
   * error is reported by its kind and the turn is done; a broken stream shows
   * its reason.
   */
  lemma {:induction false} TurnClosesOnce(t: Track, before: seq<Notification>, n: Notification, after: seq<Notification>)
    requires Ends(n) && forall i :: 0 <= i < |before| ==> !Ends(before[i])
    ensures var events := Stream(t, before + ([n] + after));
      && EndsSo(n, t.streamedReasoning || StreamsReasoning(before), Select(events, Closes))
      && events != [] && (!n.Broken? ==> events[|events| - 1] == TurnDone)
    decreases |before|
  {
    var rest := [n] + after;
    if before == [] {
      assert before + rest == rest;
      NotesOneByOne(t, rest, Closes);
      HandlesTheEnd(t, n);
    } else {
      TailOfConcat(before, rest);
      var next := OpenStep(t, before + rest);
      TurnClosesOnce(next, before[1..], n, after);
      StreamsSooner(before);
    }
  }

  /** A notification that does not end the turn closes nothing. */
  lemma OpenNote(t: Track, notes: seq<Notification>) returns (events: seq<Event>, next: Track)
    requires notes != [] && !Ends(notes[0])
    ensures Stream(t, notes) == events + Stream(next, notes[1..]) && Select(events, Closes) == []
    ensures next.streamedReasoning == (t.streamedReasoning || IsReasoningDelta(notes[0]))
  {
    events, next := Handle(t, notes[0]).events, Handle(t, notes[0]).track;
    HandlesTheEnd(t, notes[0]);
    HandleReasoning(t, notes[0]);
  }

  /** So the turn closes, and ends, as the rest of it does. */
  lemma OpenStep(t: Track, notes: seq<Notification>) returns (next: Track)
    requires notes != [] && !Ends(notes[0])
    ensures next.streamedReasoning == (t.streamedReasoning || IsReasoningDelta(notes[0]))
    ensures var rest, all := Stream(next, notes[1..]), Stream(t, notes);
      && Select(all, Closes) == Select(rest, Closes)
      && (rest != [] ==> all != [] && all[|all| - 1] == rest[|rest| - 1])
  {
    var events;
    events, next := OpenNote(t, notes);
    SelectAppend(events, Stream(next, notes[1..]), Closes);
    assert [] + Select(Stream(next, notes[1..]), Closes) == Select(Stream(next, notes[1..]), Closes);
  }

  lemma StreamsSooner(before: seq<Notification>)
    requires before != []
    ensures StreamsReasoning(before) <==> IsReasoningDelta(before[0]) || StreamsReasoning(before[1..])
  {
    if i :| 0 <= i < |before[1..]| && IsReasoningDelta(before[1..][i]) { assert IsReasoningDelta(before[i + 1]); }
    if i :| 0 < i < |before| && IsReasoningDelta(before[i]) { assert IsReasoningDelta(before[1..][i - 1]); }
  }

  /** Before its end a turn shows no closing event. */
  lemma {:induction false} OpenTurnsDoNotClose(t: Track, notes: seq<Notification>)
    requires forall i :: 0 <= i < |notes| ==> !Ends(notes[i])
    ensures Select(Stream(t, notes), Closes) == []
    decreases |notes|
  {
    NotesOneByOne(t, notes, Closes);
    if notes != [] {
      HandlesTheEnd(t, notes[0]);
      OpenTurnsDoNotClose(Handle(t, notes[0]).track, notes[1..]);
    }
  }
}
