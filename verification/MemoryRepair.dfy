/**
 * Rebuilding a goal's memory from saved history: the old document, when it can
 * be read, extended by what the history shows, then trimmed to the byte budget.
 */
module MemoryRepair {
  import opened Seqs
  import opened Text
  import opened GoalMemory
  import Decimal

  datatype EventKind = Progress | PlanChange | OtherEvent

  datatype HistoryEvent = HistoryEvent(id: nat, kind: EventKind, body: string, run: string)

  /** What a repair reads: open tasks, schedules, the timeline, and the goal's stated next step. */
  datatype Evidence = Evidence(tasks: seq<string>, schedules: seq<string>, events: seq<HistoryEvent>, nextStep: string)

  function Starting(existing: Option<Document>): Document {
    match existing
    case None => Document(REBUILT, [], [])
    case Some(doc) => if Blank(doc.currentState) then doc.(currentState := REBUILT) else doc
  }

  /** appendPlan */
  function AddStep(plan: seq<string>, text: string): seq<string> {
    var step := ShortText(text, MAX_STEP);
    if step == "" || |plan| >= MAX_STEPS || step in plan then plan else plan + [step]
  }

  function AddSteps(plan: seq<string>, texts: seq<string>): seq<string>
    decreases |texts|
  {
    if texts == [] then plan else AddSteps(AddStep(plan, texts[0]), texts[1..])
  }

  function ScheduleSteps(schedules: seq<string>): seq<string> {
    seq(|schedules|, i requires 0 <= i < |schedules| => "Run schedule " + schedules[i])
  }

  function EventId(e: HistoryEvent): string {
    "event-" + Decimal.Render(e.id)
  }

  function EventItem(e: HistoryEvent, body: string): Item {
    Item(EventId(e), Milestone, ShortText(body, MAX_TITLE), "", "", body, "", e.run, false, "")
  }

  function AddItem(items: seq<Item>, room: nat, item: Item): seq<Item> {
    if |items| < room && item.id !in Ids(items) then items + [item] else items
  }

  /** One timeline entry; room is how many items the document may hold. */
  function ReadEvent(doc: Document, room: nat, e: HistoryEvent): Document {
    var body := ShortText(e.body, MAX_DETAIL);
    if body == "" then doc
    else match e.kind
      case Progress =>
        Document(if doc.currentState == REBUILT then ShortText(body, MAX_STATE) else doc.currentState,
                 doc.plan, AddItem(doc.items, room, EventItem(e, body)))
      case PlanChange => doc.(plan := AddStep(doc.plan, body))
      case OtherEvent => doc
  }

  function ReadEvents(doc: Document, room: nat, events: seq<HistoryEvent>): Document
    decreases |events|
  {
    if events == [] then doc else ReadEvents(ReadEvent(doc, room, events[0]), room, events[1..])
  }

  function Planned(start: Document, e: Evidence): Document {
    start.(plan := AddSteps(AddSteps(start.plan, e.tasks), ScheduleSteps(e.schedules)))
  }

  /** The whole draft, before any trimming. */
  function Draft(existing: Option<Document>, e: Evidence): Document {
    var start := Starting(existing);
    WithNextStep(ReadEvents(Planned(start, e), |start.items| + MAX_REBUILT, e.events), e.nextStep)
  }

  function WithNextStep(doc: Document, nextStep: string): Document {
    if doc.plan == [] && !Blank(nextStep) then doc.(plan := AddStep(doc.plan, nextStep)) else doc
  }

  function FirstItems(doc: Document, n: nat): Document
    requires n <= |doc.items|
  {
    doc.(items := doc.items[..n])
  }

  function FirstSteps(doc: Document, n: nat): Document
    requires n <= |doc.plan|
  {
    doc.(plan := doc.plan[..n])
  }

  /** Trims added items from the end, and then added plan steps, until the document fits; None if it cannot. */
  function TrimToBudget(doc: Document, keepItems: nat, keepSteps: nat, size: Document -> nat): Option<Document>
    decreases |doc.items| + |doc.plan|
  {
    if size(doc) <= MAX_BYTES then Some(doc)
    else if |doc.items| > keepItems then TrimToBudget(FirstItems(doc, |doc.items| - 1), keepItems, keepSteps, size)
    else if |doc.plan| > keepSteps then TrimToBudget(FirstSteps(doc, |doc.plan| - 1), keepItems, keepSteps, size)
    else None
  }

  /** The document a repair would publish; its size as JSON is whatever the encoder makes it. */
  function Rebuilt(existing: Option<Document>, e: Evidence, size: Document -> nat): Option<Document> {
    var start := Starting(existing);
    TrimToBudget(Draft(existing, e), |start.items|, |start.plan|, size)
  }

  /** The loops of RepairGoalMemory. What they rebuild recalls the evidence and fits. */
  method Rebuild(existing: Option<Document>, e: Evidence, size: Document -> nat) returns (r: Option<Document>)
    ensures r == Rebuilt(existing, e, size)
    ensures r.Some? ==> Recalls(existing, e, r.value) && size(r.value) <= 32 * 1024
  {
    var start := Starting(existing);
    var draft := BuildDraft(existing, e);
    r := TrimDraft(draft, |start.items|, |start.plan|, size);
    if r.Some? {
      RepairRecalls(existing, e, size);
      RepairPreservesAndFits(existing, e, size);
    }
  }

  method BuildDraft(existing: Option<Document>, e: Evidence) returns (doc: Document)
    ensures doc == Draft(existing, e)
  {
    var start := Starting(existing);
    doc := PlanFrom(start, e);
    doc := ReadAll(doc, |start.items| + MAX_REBUILT, e.events);
    doc := FallBackOnNextStep(doc, e.nextStep);
  }

  method PlanFrom(start: Document, e: Evidence) returns (doc: Document)
    ensures doc == Planned(start, e)
  {
    var plan := ExtendPlan(start.plan, e.tasks);
    plan := ExtendPlan(plan, ScheduleSteps(e.schedules));
    doc := start.(plan := plan);
  }

  method FallBackOnNextStep(doc: Document, nextStep: string) returns (r: Document)
    ensures r == WithNextStep(doc, nextStep)
  {
    r := doc;
    if doc.plan == [] && !Blank(nextStep) {
      r := doc.(plan := AddStep(doc.plan, nextStep));
    }
  }

  method ReadAll(doc0: Document, room: nat, events: seq<HistoryEvent>) returns (doc: Document)
    ensures doc == ReadEvents(doc0, room, events)
  {
    doc := doc0;
    for i := 0 to |events|
      invariant ReadEvents(doc0, room, events) == ReadEvents(doc, room, events[i..])
    {
      assert events[i..][0] == events[i] && events[i..][1..] == events[i + 1..];
      doc := ReadEvent(doc, room, events[i]);
    }
  }

  method TrimDraft(draft: Document, originalItems: nat, originalPlan: nat, size: Document -> nat) returns (r: Option<Document>)
    ensures r == TrimToBudget(draft, originalItems, originalPlan, size)
  {
    var doc := draft;
    while size(doc) > MAX_BYTES && |doc.items| > originalItems
      invariant TrimToBudget(doc, originalItems, originalPlan, size) == TrimToBudget(draft, originalItems, originalPlan, size)
      decreases |doc.items|
    {
      doc := FirstItems(doc, |doc.items| - 1);
    }
    while size(doc) > MAX_BYTES && |doc.plan| > originalPlan
      invariant size(doc) > MAX_BYTES ==> |doc.items| <= originalItems
      invariant TrimToBudget(doc, originalItems, originalPlan, size) == TrimToBudget(draft, originalItems, originalPlan, size)
      decreases |doc.plan|
    {
      var shorter := FirstSteps(doc, |doc.plan| - 1);
      doc := shorter;
    }
    if size(doc) > MAX_BYTES { return None; }
    r := Some(doc);
  }

  method ExtendPlan(plan0: seq<string>, texts: seq<string>) returns (plan: seq<string>)
    ensures plan == AddSteps(plan0, texts)
  {
    plan := plan0;
    for i := 0 to |texts|
      invariant AddSteps(plan0, texts) == AddSteps(plan, texts[i..])
    {
      assert texts[i..][0] == texts[i] && texts[i..][1..] == texts[i + 1..];
      plan := AddStep(plan, texts[i]);
    }
  }

  // ----------------------------------------------- what a repair guarantees

  /** A document the repair may end with: it gives up plan steps only once every added item is gone. */
  ghost predicate InOrder(doc: Document, i: nat, p: nat, keepItems: nat, keepSteps: nat) {
    && keepItems <= i <= |doc.items| && keepSteps <= p <= |doc.plan|
    && (p < |doc.plan| ==> i == keepItems)
  }

  function Part(doc: Document, i: nat, p: nat): Document
    requires i <= |doc.items| && p <= |doc.plan|
  {
    Document(doc.currentState, doc.plan[..p], doc.items[..i])
  }

  /**
   * Trimming fits the budget or refuses, and gives up as little as its order
   * allows: no allowed part that keeps more would fit, and when it refuses,
   * no allowed part fits at all.
   */
  lemma {:induction false} TrimmingDropsTheFewest(doc: Document, keepItems: nat, keepSteps: nat, size: Document -> nat)
    requires keepItems <= |doc.items| && keepSteps <= |doc.plan|
    ensures var r := TrimToBudget(doc, keepItems, keepSteps, size);
      && (r.Some? ==>
            && size(r.value) <= MAX_BYTES
            && InOrder(doc, |r.value.items|, |r.value.plan|, keepItems, keepSteps)
            && r.value == Part(doc, |r.value.items|, |r.value.plan|)
            && forall i: nat, p: nat :: InOrder(doc, i, p, keepItems, keepSteps) && size(Part(doc, i, p)) <= MAX_BYTES
                 ==> i + p <= |r.value.items| + |r.value.plan|)
      && (r.None? ==>
            forall i: nat, p: nat :: InOrder(doc, i, p, keepItems, keepSteps) ==> size(Part(doc, i, p)) > MAX_BYTES)
    decreases |doc.items| + |doc.plan|
  {
    assert Part(doc, |doc.items|, |doc.plan|) == doc;
    if size(doc) > MAX_BYTES {
      if |doc.items| > keepItems {
        var next := FirstItems(doc, |doc.items| - 1);
        TrimmingDropsTheFewest(next, keepItems, keepSteps, size);
        forall i: nat, p: nat | InOrder(doc, i, p, keepItems, keepSteps) && i < |doc.items|
          ensures InOrder(next, i, p, keepItems, keepSteps) && Part(next, i, p) == Part(doc, i, p)
        {
          assert next.items[..i] == doc.items[..i];
        }
        TrimmedIsPart(next, doc, keepItems, keepSteps, size);
      } else if |doc.plan| > keepSteps {
        var next := FirstSteps(doc, |doc.plan| - 1);
        TrimmingDropsTheFewest(next, keepItems, keepSteps, size);
        forall i: nat, p: nat | InOrder(doc, i, p, keepItems, keepSteps) && p < |doc.plan|
          ensures InOrder(next, i, p, keepItems, keepSteps) && Part(next, i, p) == Part(doc, i, p)
        {
          assert next.plan[..p] == doc.plan[..p];
        }
        TrimmedIsPart(next, doc, keepItems, keepSteps, size);
      }
    }
  }

  lemma {:induction false} TrimmedIsPart(next: Document, doc: Document, keepItems: nat, keepSteps: nat,
      size: Document -> nat)
    requires next.currentState == doc.currentState && next.items <= doc.items && next.plan <= doc.plan
    requires var r := TrimToBudget(next, keepItems, keepSteps, size);
      r.Some? ==> |r.value.items| <= |next.items| && |r.value.plan| <= |next.plan|
                  && r.value == Part(next, |r.value.items|, |r.value.plan|)
    ensures var r := TrimToBudget(next, keepItems, keepSteps, size);
      r.Some? ==> |r.value.items| <= |doc.items| && |r.value.plan| <= |doc.plan|
                  && r.value == Part(doc, |r.value.items|, |r.value.plan|)
  {
    var r := TrimToBudget(next, keepItems, keepSteps, size);
    if r.Some? {
      assert next.items[..|r.value.items|] == doc.items[..|r.value.items|];
      assert next.plan[..|r.value.plan|] == doc.plan[..|r.value.plan|];
    }
  }

  /** Ids are unique, and the plan's added steps are proper steps. */
  predicate Extends(was: Document, doc: Document) {
    && was.items <= doc.items
    && was.plan <= doc.plan
    && (Distinct(Ids(was.items)) ==> Distinct(Ids(doc.items)))
    && (forall i :: |was.plan| <= i < |doc.plan| ==> doc.plan[i] != "" && |doc.plan[i]| <= MAX_STEP)
    && (forall i :: |was.items| <= i < |doc.items| ==>
          doc.items[i].kind == Milestone && !doc.items[i].retired && |doc.items[i].title| <= MAX_TITLE)
    && |doc.items| <= |was.items| + MAX_REBUILT
    && (|doc.plan| > |was.plan| ==> |doc.plan| <= MAX_STEPS)
    && doc.currentState != ""
  }

  lemma {:induction false} AddStepsExtends(was: Document, doc: Document, texts: seq<string>)
    requires Extends(was, doc)
    ensures Extends(was, doc.(plan := AddSteps(doc.plan, texts)))
    decreases |texts|
  {
    if texts != [] {
      AddStepExtends(was, doc, texts[0]);
      AddStepsExtends(was, doc.(plan := AddStep(doc.plan, texts[0])), texts[1..]);
    }
  }

  lemma AddStepExtends(was: Document, doc: Document, text: string)
    requires Extends(was, doc)
    ensures Extends(was, doc.(plan := AddStep(doc.plan, text)))
  {
  }

  lemma {:induction false} ReadEventsExtends(was: Document, doc: Document, events: seq<HistoryEvent>)
    requires Extends(was, doc)
    ensures Extends(was, ReadEvents(doc, |was.items| + MAX_REBUILT, events))
    decreases |events|
  {
    if events != [] {
      ReadEventExtends(was, doc, events[0]);
      ReadEventsExtends(was, ReadEvent(doc, |was.items| + MAX_REBUILT, events[0]), events[1..]);
    }
  }

  lemma ReadEventExtends(was: Document, doc: Document, e: HistoryEvent)
    requires Extends(was, doc)
    ensures Extends(was, ReadEvent(doc, |was.items| + MAX_REBUILT, e))
  {
    var body := ShortText(e.body, MAX_DETAIL);
    if body != "" {
      match e.kind
      case Progress => ReadProgressExtends(was, doc, e);
      case PlanChange => AddStepExtends(was, doc, body);
      case OtherEvent =>
    }
  }

  lemma ReadProgressExtends(was: Document, doc: Document, e: HistoryEvent)
    requires Extends(was, doc) && e.kind.Progress? && ShortText(e.body, MAX_DETAIL) != ""
    ensures Extends(was, ReadEvent(doc, |was.items| + MAX_REBUILT, e))
  {
    var body := ShortText(e.body, MAX_DETAIL);
    assert ShortText(body, MAX_STATE) != "" by { TrimmedIsFixed(body); }
    AddItemExtends(was, doc, EventItem(e, body));
  }

  lemma AddItemExtends(was: Document, doc: Document, item: Item)
    requires Extends(was, doc) && item.kind.Milestone? && !item.retired && |item.title| <= MAX_TITLE
    ensures Extends(was, doc.(items := AddItem(doc.items, |was.items| + MAX_REBUILT, item)))
  {
    if item.id !in Ids(doc.items) {
      assert Ids(doc.items + [item]) == Ids(doc.items) + [item.id];
    }
  }

  lemma PlannedExtends(start: Document, e: Evidence)
    requires Extends(start, start)
    ensures Extends(start, Planned(start, e))
  {
    AddStepsExtends(start, start, e.tasks);
    AddStepsExtends(start, start.(plan := AddSteps(start.plan, e.tasks)), ScheduleSteps(e.schedules));
  }

  lemma StartingExtendsItself(existing: Option<Document>)
    ensures Extends(Starting(existing), Starting(existing))
  {
  }

  lemma DraftExtends(existing: Option<Document>, e: Evidence)
    ensures Extends(Starting(existing), Draft(existing, e))
  {
    var start := Starting(existing);
    StartingExtendsItself(existing);
    PlannedExtends(start, e);
    ReadEventsExtends(start, Planned(start, e), e.events);
    WithNextStepExtends(start, ReadEvents(Planned(start, e), |start.items| + MAX_REBUILT, e.events), e.nextStep);
  }

  lemma WithNextStepExtends(was: Document, doc: Document, nextStep: string)
    requires Extends(was, doc)
    ensures Extends(was, WithNextStep(doc, nextStep))
  {
    AddStepExtends(was, doc, nextStep);
  }

  /**
   * A repair keeps the old items and the old plan as prefixes, keeps ids
   * unique, fits the budget or refuses, and drops as little as possible.
   */
  lemma RepairPreservesAndFits(existing: Option<Document>, e: Evidence, size: Document -> nat)
    ensures var start, draft, r := Starting(existing), Draft(existing, e), Rebuilt(existing, e, size);
      && (r.Some? ==>
            && Extends(start, r.value) && size(r.value) <= MAX_BYTES
            && forall i: nat, p: nat :: InOrder(draft, i, p, |start.items|, |start.plan|) && size(Part(draft, i, p)) <= MAX_BYTES
                 ==> i + p <= |r.value.items| + |r.value.plan|)
      && (r.None? ==>
            forall i: nat, p: nat :: InOrder(draft, i, p, |start.items|, |start.plan|) ==> size(Part(draft, i, p)) > MAX_BYTES)
  {
    var start, draft, r := Starting(existing), Draft(existing, e), Rebuilt(existing, e, size);
    DraftExtends(existing, e);
    TrimmingDropsTheFewest(draft, |start.items|, |start.plan|, size);
    if r.Some? {
      var n := |r.value.items|;
      assert r.value.items == draft.items[..n];
      forall i, j | 0 <= i < j < n ensures Distinct(Ids(start.items)) ==> Ids(r.value.items)[i] != Ids(r.value.items)[j] {
        assert Ids(r.value.items)[i] == Ids(draft.items)[i] && Ids(r.value.items)[j] == Ids(draft.items)[j];
      }
    }
  }

  /** An item stands for one progress entry of the timeline: a milestone that shows its text and names its run. */
  predicate StandsFor(item: Item, e: HistoryEvent) {
    var body := ShortText(e.body, 240);
    && e.kind == Progress && body != ""
    && item.id == "event-" + Decimal.Render(e.id) && item.kind == Milestone
    && item.title == ShortText(body, 120) && item.evidence == body && item.source == e.run
    && item.detail == "" && item.rationale == "" && item.url == "" && !item.retired && item.reason == ""
  }

  ghost predicate FromHistory(item: Item, events: seq<HistoryEvent>) {
    exists j :: 0 <= j < |events| && StandsFor(item, events[j])
  }

  lemma {:induction false} ReadItemsAreHistory(was: Document, doc: Document, room: nat, events: seq<HistoryEvent>, k: nat)
    requires k <= |events| && was.items <= doc.items
    requires forall i :: |was.items| <= i < |doc.items| ==> FromHistory(doc.items[i], events)
    ensures var read := ReadEvents(doc, room, events[k..]);
      was.items <= read.items && forall i :: |was.items| <= i < |read.items| ==> FromHistory(read.items[i], events)
    decreases |events| - k
  {
    if k < |events| {
      assert events[k..][0] == events[k] && events[k..][1..] == events[k + 1..];
      ReadItemsAreHistory(was, ReadEvent(doc, room, events[k]), room, events, k + 1);
    }
  }

  lemma {:induction false} TrimmingKeepsPrefixes(doc: Document, keepItems: nat, keepSteps: nat, size: Document -> nat)
    ensures var r := TrimToBudget(doc, keepItems, keepSteps, size);
      r.Some? ==> r.value.items <= doc.items && r.value.plan <= doc.plan
    decreases |doc.items| + |doc.plan|
  {
    if size(doc) > MAX_BYTES {
      if |doc.items| > keepItems {
        TrimmingKeepsPrefixes(FirstItems(doc, |doc.items| - 1), keepItems, keepSteps, size);
      } else if |doc.plan| > keepSteps {
        TrimmingKeepsPrefixes(FirstSteps(doc, |doc.plan| - 1), keepItems, keepSteps, size);
      }
    }
  }

  /** Everything a repair adds to the old items stands for a saved progress entry. */
  lemma RepairAddsOnlyHistory(existing: Option<Document>, e: Evidence, size: Document -> nat)
    requires Rebuilt(existing, e, size).Some?
    ensures var was, items := Starting(existing).items, Rebuilt(existing, e, size).value.items;
      forall i :: |was| <= i < |items| ==> FromHistory(items[i], e.events)
  {
    var start := Starting(existing);
    var draft, r := Draft(existing, e), Rebuilt(existing, e, size).value;
    assert e.events[0..] == e.events;
    assert forall i :: |start.items| <= i < |draft.items| ==> FromHistory(draft.items[i], e.events) by {
      ReadItemsAreHistory(start, Planned(start, e), |start.items| + MAX_REBUILT, e.events, 0);
    }
    assert r.items <= draft.items by { TrimmingKeepsPrefixes(draft, |start.items|, |start.plan|, size); }
  }

  // ------------------------------------------- which items a rebuild ends with

  /** The ids of the progress entries that have something to say, in order. */
  function NotedIds(events: seq<HistoryEvent>): seq<string> {
    if events == [] then []
    else if events[0].kind.Progress? && ShortText(events[0].body, MAX_DETAIL) != "" then [EventId(events[0])] + NotedIds(events[1..])
    else NotedIds(events[1..])
  }

  function FirstOf(ids: seq<string>, n: nat): seq<string> {
    if |ids| <= n then ids else ids[..n]
  }

  lemma FirstOfPush(id: string, ids: seq<string>, n: nat)
    ensures FirstOf([id] + ids, n + 1) == [id] + FirstOf(ids, n)
  {
  }

  /** Reading the timeline appends the first new entries, each once, as far as there is room. */
  lemma {:induction false} ReadingAppendsIds(doc: Document, room: nat, events: seq<HistoryEvent>)
    requires |doc.items| <= room
    ensures Ids(ReadEvents(doc, room, events).items)
      == Ids(doc.items) + FirstOf(FirstMentions(Ids(doc.items), NotedIds(events)), room - |doc.items|)
    decreases |events|
  {
    var seen := Ids(doc.items);
    if events == [] {
      assert seen + [] == seen;
    } else {
      var next := ReadEvent(doc, room, events[0]);
      ReadingOneAppends(doc, room, events[0]);
      ReadingAppendsIds(next, room, events[1..]);
      if NotedIds([events[0]]) != [] {
        var id, later := EventId(events[0]), NotedIds(events[1..]);
        assert NotedIds(events)[0] == id && NotedIds(events)[1..] == later;
        if id !in seen {
          var rest := FirstMentions(seen + [id], later);
          if |doc.items| < room {
            FirstOfPush(id, rest, room - |doc.items| - 1);
            Assoc(seen, [id], FirstOf(rest, room - |doc.items| - 1));
          }
        }
      }
    }
  }

  lemma ReadingOneAppends(doc: Document, room: nat, e: HistoryEvent)
    ensures Ids(ReadEvent(doc, room, e).items) ==
      if NotedIds([e]) != [] && EventId(e) !in Ids(doc.items) && |doc.items| < room then Ids(doc.items) + [EventId(e)] else Ids(doc.items)
    ensures NotedIds([e]) == if e.kind.Progress? && ShortText(e.body, MAX_DETAIL) != "" then [EventId(e)] else []
  {
    assert [e][1..] == [];
    var item := EventItem(e, ShortText(e.body, MAX_DETAIL));
    assert Ids(doc.items + [item]) == Ids(doc.items) + [item.id];
  }

  /** The timeline read onto a planned document. */
  function Read(start: Document, e: Evidence): Document {
    ReadEvents(Planned(start, e), |start.items| + MAX_REBUILT, e.events)
  }

  lemma ReadIds(start: Document, e: Evidence)
    ensures Ids(Read(start, e).items) == Ids(start.items) + FirstOf(FirstMentions(Ids(start.items), NotedIds(e.events)), MAX_REBUILT)
  {
    ReadingAppendsIds(Planned(start, e), |start.items| + MAX_REBUILT, e.events);
  }

  /** What was read: its ids, its plan, and where it stands. */
  lemma DraftIsRead(existing: Option<Document>, e: Evidence) returns (read: Document)
    ensures Draft(existing, e) == WithNextStep(read, e.nextStep)
    ensures read == Read(Starting(existing), e)
  {
    read := Read(Starting(existing), e);
  }

  /** The ids of a draft: the old ones, and the first 40 progress entries not among them. */
  lemma DraftIds(existing: Option<Document>, e: Evidence)
    ensures var was := Ids(Starting(existing).items);
      Ids(Draft(existing, e).items) == was + FirstOf(FirstMentions(was, NotedIds(e.events)), MAX_REBUILT)
  {
    ReadIds(Starting(existing), e);
    var read := DraftIsRead(existing, e);
    NextStepAddsNoItems(read, e.nextStep);
  }

  lemma NextStepAddsNoItems(doc: Document, nextStep: string)
    ensures WithNextStep(doc, nextStep).items == doc.items
  {
  }

  /** An item outlasts the trimming exactly when it is an old one, or some document that keeps it and the whole plan fits. */
  lemma {:induction false} TrimmingKeepsExactly(doc: Document, keepItems: nat, keepSteps: nat,
      size: Document -> nat, j: nat)
    requires keepItems <= |doc.items| && TrimToBudget(doc, keepItems, keepSteps, size).Some?
    ensures j < |TrimToBudget(doc, keepItems, keepSteps, size).value.items|
      <==> j < keepItems || exists i: nat :: j < i <= |doc.items| && size(Part(doc, i, |doc.plan|)) <= MAX_BYTES
    decreases |doc.items|
  {
    var n := |doc.items|;
    assert Part(doc, n, |doc.plan|) == doc;
    if size(doc) > MAX_BYTES && n > keepItems {
      var next := FirstItems(doc, n - 1);
      TrimmingKeepsExactly(next, keepItems, keepSteps, size, j);
      forall i: nat | i <= n - 1 ensures Part(next, i, |next.plan|) == Part(doc, i, |doc.plan|) {
        assert next.items[..i] == doc.items[..i];
      }
      if i: nat :| j < i <= n && size(Part(doc, i, |doc.plan|)) <= MAX_BYTES {
        assert i <= n - 1;
        assert size(Part(next, i, |next.plan|)) <= MAX_BYTES;
      }
    } else if size(doc) > MAX_BYTES {
      TrimmingStepsKeepsItems(doc, keepItems, keepSteps, size);
    }
  }

  lemma {:induction false} TrimmingStepsKeepsItems(doc: Document, keepItems: nat, keepSteps: nat, size: Document -> nat)
    requires |doc.items| <= keepItems && TrimToBudget(doc, keepItems, keepSteps, size).Some?
    ensures TrimToBudget(doc, keepItems, keepSteps, size).value.items == doc.items
    decreases |doc.plan|
  {
    if size(doc) > MAX_BYTES { TrimmingStepsKeepsItems(FirstSteps(doc, |doc.plan| - 1), keepItems, keepSteps, size); }
  }

  /** The ids a rebuild from nothing may remember: the first 40 distinct progress entries with something to say. */
  function Memorable(e: Evidence): seq<string> {
    FirstOf(FirstMentions([], NotedIds(e.events)), MAX_REBUILT)
  }

  /** The draft cut behind this item, or further on, fits the budget with its whole plan. */
  ghost predicate FitsBehind(draft: Document, size: Document -> nat, j: nat) {
    exists i: nat :: j < i <= |draft.items| && size(Part(draft, i, |draft.plan|)) <= MAX_BYTES
  }

  /** What a rebuild from nothing remembers. */
  ghost predicate Remembers(e: Evidence, size: Document -> nat, id: string) {
    exists j: nat :: j < |Memorable(e)| && Memorable(e)[j] == id && FitsBehind(Draft(None, e), size, j)
  }

  lemma RebuiltIsMemorable(e: Evidence, size: Document -> nat)
    requires Rebuilt(None, e, size).Some?
    ensures Ids(Draft(None, e).items) == Memorable(e)
    ensures Ids(Rebuilt(None, e, size).value.items) <= Memorable(e)
  {
    DraftIds(None, e);
    assert Ids(Starting(None).items) == [] && [] + Memorable(e) == Memorable(e);
    TrimmingKeepsPrefixes(Draft(None, e), 0, 0, size);
    var draft, r := Draft(None, e), Rebuilt(None, e, size).value;
    assert forall j :: 0 <= j < |r.items| ==> Ids(r.items)[j] == Ids(draft.items)[j];
  }

  lemma RebuiltLength(e: Evidence, size: Document -> nat, j: nat)
    requires Rebuilt(None, e, size).Some?
    ensures j < |Rebuilt(None, e, size).value.items| <==> FitsBehind(Draft(None, e), size, j)
  {
    TrimmingKeepsExactly(Draft(None, e), 0, 0, size, j);
  }

  /** A rebuild that has no readable document to start from holds exactly the ids it remembers. */
  lemma RebuildRemembersExactly(e: Evidence, size: Document -> nat, id: string)
    requires Rebuilt(None, e, size).Some?
    ensures id in Ids(Rebuilt(None, e, size).value.items) <==> Remembers(e, size, id)
  {
    var ids := Ids(Rebuilt(None, e, size).value.items);
    RebuiltIsMemorable(e, size);
    forall j: nat | j < |Memorable(e)| ensures j < |ids| <==> FitsBehind(Draft(None, e), size, j) {
      RebuiltLength(e, size, j);
    }
    InPrefix(ids, Memorable(e), id);
  }

  lemma InPrefix(ids: seq<string>, all: seq<string>, id: string)
    requires ids <= all
    ensures id in ids <==> exists j: nat :: j < |all| && all[j] == id && j < |ids|
  {
    if id in ids {
      var j :| 0 <= j < |ids| && ids[j] == id;
      assert all[j] == id;
    }
  }

  // --------------------------------------------- which plan a repair ends with

  /** The texts that say something, shortened to a plan step. */
  function Worded(texts: seq<string>): seq<string> {
    if texts == [] then []
    else (if ShortText(texts[0], 180) == "" then [] else [ShortText(texts[0], 180)]) + Worded(texts[1..])
  }

  /** The shortened bodies of the timeline's plan changes. */
  function PlanChanges(events: seq<HistoryEvent>): seq<string> {
    if events == [] then []
    else
      (if events[0].kind == PlanChange && ShortText(events[0].body, 240) != "" then [ShortText(events[0].body, 240)] else [])
      + PlanChanges(events[1..])
  }

  function OnSchedule(schedules: seq<string>): seq<string> {
    if schedules == [] then [] else ["Run schedule " + schedules[0]] + OnSchedule(schedules[1..])
  }

  /** A plan holds up to 20 steps. */
  function StepsLeft(plan: seq<string>): nat {
    if |plan| < 20 then 20 - |plan| else 0
  }

  /** A plan with the first new steps of some texts, each once, as far as there is room. */
  function Extended(plan: seq<string>, texts: seq<string>): seq<string> {
    plan + FirstOf(FirstMentions(plan, Worded(texts)), StepsLeft(plan))
  }

  /**
   * The whole plan: the old one, and then open tasks, schedules and the plan
   * changes of the timeline; the stated next step if that is nothing.
   */
  function WholePlan(was: seq<string>, e: Evidence): seq<string> {
    var plan := Extended(was, e.tasks + OnSchedule(e.schedules) + PlanChanges(e.events));
    if plan == [] && !Blank(e.nextStep) then [ShortText(e.nextStep, 180)] else plan
  }

  lemma {:induction false} AddingExtends(plan: seq<string>, texts: seq<string>)
    ensures AddSteps(plan, texts) == Extended(plan, texts)
    decreases |texts|
  {
    if texts == [] {
      assert plan + [] == plan;
    } else {
      AddingExtends(AddStep(plan, texts[0]), texts[1..]);
      FirstExtends(plan, texts);
    }
  }

  /** Taking the first text on first makes no difference. */
  lemma FirstExtends(plan: seq<string>, texts: seq<string>)
    requires texts != []
    ensures Extended(AddStep(plan, texts[0]), texts[1..]) == Extended(plan, texts)
  {
    var step, later := ShortText(texts[0], 180), Worded(texts[1..]);
    if step == "" {
      assert Worded(texts) == later;
    } else {
      assert Worded(texts)[0] == step && Worded(texts)[1..] == later;
      if step !in plan {
        var rest := FirstMentions(plan + [step], later);
        assert FirstMentions(plan, Worded(texts)) == [step] + rest;
        if |plan| < 20 {
          FirstOfPush(step, rest, StepsLeft(plan + [step]));
          Assoc(plan, [step], FirstOf(rest, StepsLeft(plan + [step])));
        }
      }
    }
  }

  lemma {:induction false} AddStepsConcat(plan: seq<string>, a: seq<string>, b: seq<string>)
    ensures AddSteps(plan, a + b) == AddSteps(AddSteps(plan, a), b)
    decreases |a|
  {
    if a == [] {
      assert a + b == b;
    } else {
      TailOfConcat(a, b);
      AddStepsConcat(AddStep(plan, a[0]), a[1..], b);
    }
  }

  lemma ReadingOnePlans(doc: Document, room: nat, e: HistoryEvent)
    ensures var body := ShortText(e.body, 240);
      ReadEvent(doc, room, e).plan == if e.kind == PlanChange && body != "" then AddStep(doc.plan, body) else doc.plan
  {
  }

  lemma {:induction false} FirstChange(events: seq<HistoryEvent>, plan: seq<string>)
    requires events != []
    ensures var body, rest := ShortText(events[0].body, 240), PlanChanges(events[1..]);
      AddSteps(plan, PlanChanges(events)) ==
        AddSteps(if events[0].kind == PlanChange && body != "" then AddStep(plan, body) else plan, rest)
  {
    var body, rest := ShortText(events[0].body, 240), PlanChanges(events[1..]);
    assert [] + rest == rest;
    assert ([body] + rest)[1..] == rest;
  }

  lemma {:induction false} ReadingPlans(doc: Document, room: nat, events: seq<HistoryEvent>)
    ensures ReadEvents(doc, room, events).plan == AddSteps(doc.plan, PlanChanges(events))
    decreases |events|
  {
    if events != [] {
      ReadingOnePlans(doc, room, events[0]);
      FirstChange(events, doc.plan);
      ReadingPlans(ReadEvent(doc, room, events[0]), room, events[1..]);
    }
  }

  lemma {:induction false} SchedulesAreSteps(schedules: seq<string>)
    ensures ScheduleSteps(schedules) == OnSchedule(schedules)
  {
    if schedules != [] {
      SchedulesAreSteps(schedules[1..]);
      assert ScheduleSteps(schedules)[1..] == ScheduleSteps(schedules[1..]);
    }
  }

  lemma {:induction false} PlanChain(was: seq<string>, e: Evidence)
    ensures AddSteps(AddSteps(AddSteps(was, e.tasks), ScheduleSteps(e.schedules)), PlanChanges(e.events))
         == Extended(was, e.tasks + OnSchedule(e.schedules) + PlanChanges(e.events))
  {
    SchedulesAreSteps(e.schedules);
    AddStepsConcat(was, e.tasks, OnSchedule(e.schedules));
    AddStepsConcat(was, e.tasks + OnSchedule(e.schedules), PlanChanges(e.events));
    AddingExtends(was, e.tasks + OnSchedule(e.schedules) + PlanChanges(e.events));
  }

  lemma FallingBack(doc: Document, nextStep: string)
    ensures WithNextStep(doc, nextStep).plan == if doc.plan == [] && !Blank(nextStep) then [ShortText(nextStep, 180)] else doc.plan
    ensures WithNextStep(doc, nextStep).currentState == doc.currentState
  {
    ShortTextCuts(nextStep, 180);
  }

  lemma ReadPlan(start: Document, e: Evidence)
    ensures Read(start, e).plan == Extended(start.plan, e.tasks + OnSchedule(e.schedules) + PlanChanges(e.events))
  {
    ReadingPlans(Planned(start, e), |start.items| + MAX_REBUILT, e.events);
    PlanChain(start.plan, e);
  }

  /** The draft's plan is that whole plan. */
  lemma DraftPlan(existing: Option<Document>, e: Evidence)
    ensures Draft(existing, e).plan == WholePlan(if existing.Some? then existing.value.plan else [], e)
  {
    ReadPlan(Starting(existing), e);
    var read := DraftIsRead(existing, e);
    FallingBack(read, e.nextStep);
  }

  // -------------------------------------------- which state a repair ends with

  /** The first progress entry with something to say, other than the placeholder itself, says where the goal stands. */
  function FirstNews(events: seq<HistoryEvent>): Option<string> {
    if events == [] then None
    else
      var body := ShortText(events[0].body, 240);
      if events[0].kind == Progress && body != "" && !IsPlaceholder(body) then Some(body) else FirstNews(events[1..])
  }

  predicate IsPlaceholder(text: string) {
    text == "Memory rebuilt from Podiom's saved goal history. The next review will verify and update it."
  }

  /** The old state if there is one to speak of, or else the first news, or else the placeholder. */
  predicate StandsAt(existing: Option<Document>, e: Evidence, state: string) {
    if existing.Some? && !Blank(existing.value.currentState) && !IsPlaceholder(existing.value.currentState)
    then state == existing.value.currentState
    else if FirstNews(e.events).Some? then state == FirstNews(e.events).value
    else IsPlaceholder(state)
  }

  lemma ReadingOneStands(doc: Document, room: nat, e: HistoryEvent)
    ensures var body := ShortText(e.body, 240);
      ReadEvent(doc, room, e).currentState ==
        if doc.currentState == REBUILT && e.kind == Progress && body != "" then body else doc.currentState
  {
    ShortTextCuts(ShortText(e.body, 240), 240);
    TrimmedIsFixed(ShortText(e.body, 240));
  }

  lemma {:induction false} ReadingStands(doc: Document, room: nat, events: seq<HistoryEvent>)
    ensures ReadEvents(doc, room, events).currentState ==
      if doc.currentState == REBUILT && FirstNews(events).Some? then FirstNews(events).value else doc.currentState
    decreases |events|
  {
    if events != [] {
      ReadingOneStands(doc, room, events[0]);
      ReadingStands(ReadEvent(doc, room, events[0]), room, events[1..]);
    }
  }

  lemma {:induction false} FirstNewsIsNew(events: seq<HistoryEvent>)
    ensures FirstNews(events).Some? ==> !IsPlaceholder(FirstNews(events).value)
  {
    if events != [] { FirstNewsIsNew(events[1..]); }
  }

  lemma ReadStands(start: Document, e: Evidence)
    ensures Read(start, e).currentState ==
      if start.currentState == REBUILT && FirstNews(e.events).Some? then FirstNews(e.events).value else start.currentState
  {
    ReadingStands(Planned(start, e), |start.items| + MAX_REBUILT, e.events);
  }

  lemma DraftStands(existing: Option<Document>, e: Evidence)
    ensures StandsAt(existing, e, Draft(existing, e).currentState)
  {
    ReadStands(Starting(existing), e);
    var read := DraftIsRead(existing, e);
    FallingBack(read, e.nextStep);
  }

  /** The old items, and then the first new ones of the timeline, each standing for its entry. */
  ghost predicate RecallsItems(was: seq<Item>, e: Evidence, items: seq<Item>) {
    && was <= items
    && Ids(items) <= Ids(was) + FirstOf(FirstMentions(Ids(was), NotedIds(e.events)), 40)
    && (forall i :: |was| <= i < |items| ==> FromHistory(items[i], e.events))
  }

  /**
   * What a repair ends with: the old items and the first new ones, the old plan
   * and as much of the whole plan as fits, steps going only once every new item
   * has gone, and where the goal stands.
   */
  ghost predicate Recalls(existing: Option<Document>, e: Evidence, doc: Document) {
    var oldItems := if existing.Some? then existing.value.items else [];
    var oldPlan := if existing.Some? then existing.value.plan else [];
    && StandsAt(existing, e, doc.currentState)
    && RecallsItems(oldItems, e, doc.items)
    && oldPlan <= doc.plan <= WholePlan(oldPlan, e)
    && (doc.plan != WholePlan(oldPlan, e) ==> doc.items == oldItems)
  }

  lemma RepairRecalls(existing: Option<Document>, e: Evidence, size: Document -> nat)
    requires Rebuilt(existing, e, size).Some?
    ensures Recalls(existing, e, Rebuilt(existing, e, size).value)
  {
    var start, draft, doc := Starting(existing), Draft(existing, e), Rebuilt(existing, e, size).value;
    DraftPlan(existing, e);
    DraftStands(existing, e);
    RepairRecallsItems(existing, e, size);
    assert |start.items| <= |draft.items| && |start.plan| <= |draft.plan| && start.plan <= draft.plan by { DraftExtends(existing, e); }
    TrimmingDropsTheFewest(draft, |start.items|, |start.plan|, size);
    PartKeepsOrder(start, draft, |doc.items|, |doc.plan|);
  }

  lemma PartKeepsOrder(start: Document, draft: Document, i: nat, p: nat)
    requires InOrder(draft, i, p, |start.items|, |start.plan|) && start.plan <= draft.plan && start.items <= draft.items[..i]
    ensures var doc := Part(draft, i, p);
      && doc.currentState == draft.currentState && start.plan <= doc.plan <= draft.plan
      && (doc.plan != draft.plan ==> doc.items == start.items)
  {
    if p == |draft.plan| { assert draft.plan[..p] == draft.plan; }
  }

  lemma RepairRecallsItems(existing: Option<Document>, e: Evidence, size: Document -> nat)
    requires Rebuilt(existing, e, size).Some?
    ensures RecallsItems(Starting(existing).items, e, Rebuilt(existing, e, size).value.items)
  {
    var start, draft, doc := Starting(existing), Draft(existing, e), Rebuilt(existing, e, size).value;
    DraftIds(existing, e);
    RepairAddsOnlyHistory(existing, e, size);
    RepairPreservesAndFits(existing, e, size);
    TrimmingKeepsPrefixes(draft, |start.items|, |start.plan|, size);
    assert Ids(doc.items) == Ids(draft.items)[..|doc.items|];
  }
}
