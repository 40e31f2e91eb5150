/**
 * One goal's stored memory over its life: review runs commit patches, repairs
 * rebuild it, and the feedback notes a commit acknowledges keep pointing at
 * durable items or at newer notes.
 */
module MemoryStore {
  import opened Seqs
  import opened Text
  import opened GoalMemory
  import opened MemoryRepair

  datatype Disposition = Incorporated | Completed | Superseded | UnknownDisposition

  datatype Feedback = Feedback(event: int, disposition: Disposition, itemIds: seq<string>, supersededBy: int)

  datatype Patch = Patch(
    baseRevision: nat,
    currentState: Option<string>,
    plan: Option<seq<string>>,
    upserts: seq<Upsert>,
    retirements: seq<Retirement>,
    feedback: seq<Feedback>,
    outcome: string)

  /** A timeline entry, as far as acknowledging feedback goes. */
  datatype Entry = OrdinaryFeedback | PinnedFeedback | OtherEntry

  datatype Receipt = Receipt(disposition: Disposition, itemIds: seq<string>, supersededBy: int, revision: nat)

  /**
   * The stored record. The document is None when its stored form cannot be
   * decoded. cited collects every item id an accepted incorporated or completed
   * disposition ever named.
   */
  datatype Memory = Memory(
    revision: nat,
    document: Option<Document>,
    blocked: bool,
    lastRun: string,
    outcome: string,
    receipts: map<int, Receipt>,
    entries: map<int, Entry>,
    cited: set<string>)

  const NEW: Memory := Memory(0, Some(Document("", [], [])), false, "", "", map[], map[], {})

  // -------------------------------------------------------------- commits

  function StepsError(steps: seq<string>): Option<MemoryError> {
    if steps == [] then None
    else if !TextOk(steps[0], MAX_STEP, true) then Some(BadText("active plan item"))
    else StepsError(steps[1..])
  }

  function TrimAll(steps: seq<string>): seq<string> {
    seq(|steps|, i requires 0 <= i < |steps| => Trim(steps[i]))
  }

  function FirstUnknown(cited: seq<string>, known: seq<string>): (r: Option<string>)
    ensures r.None? <==> forall id :: id in cited ==> id in known
  {
    if cited == [] then None
    else if cited[0] !in known then Some(cited[0])
    else FirstUnknown(cited[1..], known)
  }

  function FeedbackError(f: Feedback, ids: seq<string>): Option<MemoryError> {
    match f.disposition
    case UnknownDisposition => Some(BadDisposition(f.event))
    case Superseded => if f.supersededBy <= f.event then Some(NotNewer(f.event)) else None
    case _ =>
      if f.itemIds == [] then Some(FeedbackNeedsItems(f.event))
      else if FirstUnknown(f.itemIds, ids).Some? then Some(UnknownItem(FirstUnknown(f.itemIds, ids).value))
      else None
  }

  function FirstFeedbackError(fs: seq<Feedback>, ids: seq<string>): Option<MemoryError> {
    if fs == [] then None
    else if FeedbackError(fs[0], ids).Some? then FeedbackError(fs[0], ids)
    else FirstFeedbackError(fs[1..], ids)
  }

  predicate IsOrdinary(entries: map<int, Entry>, event: int) {
    event in entries && entries[event].OrdinaryFeedback?
  }

  function NotOrdinary(fs: seq<Feedback>, entries: map<int, Entry>): Option<MemoryError> {
    if fs == [] then None
    else if !IsOrdinary(entries, fs[0].event) then Some(NotOrdinaryFeedback(fs[0].event))
    else if fs[0].disposition.Superseded? && !IsOrdinary(entries, fs[0].supersededBy)
      then Some(NotOrdinaryFeedback(fs[0].supersededBy))
    else NotOrdinary(fs[1..], entries)
  }

  function ReceiptOf(f: Feedback, revision: nat): Receipt {
    Receipt(f.disposition, f.itemIds, f.supersededBy, revision)
  }

  function AddReceipts(receipts: map<int, Receipt>, fs: seq<Feedback>, revision: nat): map<int, Receipt>
    decreases |fs|
  {
    if fs == [] then receipts
    else AddReceipts(receipts[fs[0].event := ReceiptOf(fs[0], revision)], fs[1..], revision)
  }

  function Cites(fs: seq<Feedback>): set<string> {
    if fs == [] then {}
    else
      (if fs[0].disposition.Incorporated? || fs[0].disposition.Completed? then set id | id in fs[0].itemIds else {})
      + Cites(fs[1..])
  }

  /** The document a patch makes of the current one, or why the patch is refused. */
  function PatchDocument(doc: Document, patch: Patch, run: string, size: Document -> nat): Result<Document, MemoryError> {
    if patch.currentState.Some? && !TextOk(patch.currentState.value, MAX_STATE, true) then Err(BadText("current_state"))
    else if patch.plan.Some? && |patch.plan.value| > MAX_STEPS then Err(TooManySteps)
    else if patch.plan.Some? && StepsError(patch.plan.value).Some? then Err(StepsError(patch.plan.value).value)
    else
      var merged := Merge(doc.items, patch.upserts, patch.retirements, run);
      if merged.Err? then Err(merged.error)
      else
        var patched := Document(
          if patch.currentState.Some? then Trim(patch.currentState.value) else doc.currentState,
          if patch.plan.Some? then TrimAll(patch.plan.value) else doc.plan,
          merged.value);
        if !TextOk(patched.currentState, MAX_STATE, true) then Err(BadText("current_state"))
        else if FirstFeedbackError(patch.feedback, Ids(patched.items)).Some?
          then Err(FirstFeedbackError(patch.feedback, Ids(patched.items)).value)
        else if size(patched) > MAX_BYTES then Err(TooLarge)
        else Ok(patched)
  }

  /** CommitGoalMemory up to the store call; run is the planning or review run the caller leads, if it leads one. */
  function Checked(revision: nat, document: Option<Document>, patch: Patch, run: Option<string>, size: Document -> nat)
    : Result<Document, MemoryError>
  {
    if run.None? then Err(NotTheLeadRun)
    else if !TextOk(patch.outcome, MAX_OUTCOME, true) then Err(BadText("outcome"))
    else if document.None? then Err(Unreadable)
    else if revision != patch.baseRevision then Err(Stale)
    else PatchDocument(document.value, patch, run.value, size)
  }

  /** What the store's transaction makes of a checked commit. */
  function Stored(m: Memory, patch: Patch, run: string, doc: Document): Memory {
    Memory(m.revision + 1, Some(doc), false, run, Trim(patch.outcome),
           AddReceipts(m.receipts, patch.feedback, m.revision + 1), m.entries, m.cited + Cites(patch.feedback))
  }

  function Committed(m: Memory, patch: Patch, run: Option<string>, size: Document -> nat): Result<Memory, MemoryError> {
    var doc := Checked(m.revision, m.document, patch, run, size);
    if doc.Err? then Err(doc.error)
    else if NotOrdinary(patch.feedback, m.entries).Some? then Err(NotOrdinary(patch.feedback, m.entries).value)
    else Ok(Stored(m, patch, run.value, doc.value))
  }

  /** RepairGoalMemory; confirmed is the lead model's answer on the draft. */
  function Repaired(m: Memory, e: Evidence, confirmed: bool, size: Document -> nat): Result<Memory, MemoryError> {
    if !m.blocked && m.document.Some? then Err(NotBlocked)
    else
      var rebuilt := Rebuilt(m.document, e, size);
      if rebuilt.None? then Err(TooLarge)
      else if !confirmed then Err(NotConfirmed)
      else Ok(Published(m, rebuilt.value))
  }

  const REPAIRED: string := "Goal memory rebuilt from saved Podiom history."

  function Published(m: Memory, doc: Document): Memory {
    Memory(m.revision + 1, Some(doc), false, "repair", REPAIRED, m.receipts, m.entries, m.cited)
  }

  // ---------------------------------------- what a commit asks, and what it does

  predicate FeedbackIsProper(items: seq<Item>, upserts: seq<Upsert>, entries: map<int, Entry>, f: Feedback) {
    && f.event in entries && entries[f.event] == OrdinaryFeedback
    && match f.disposition
       case UnknownDisposition => false
       case Superseded => f.event < f.supersededBy && f.supersededBy in entries && entries[f.supersededBy] == OrdinaryFeedback
       case _ => |f.itemIds| > 0 && forall i :: 0 <= i < |f.itemIds| ==> Known(items, upserts, f.itemIds[i])
  }

  /** Everything a commit has to bring, but for the size of what it makes. */
  ghost predicate IsProper(m: Memory, patch: Patch, run: Option<string>) {
    && run.Some? && m.document.Some? && patch.baseRevision == m.revision
    && Between(patch.outcome, 1, 240)
    && Between(if patch.currentState.Some? then patch.currentState.value else m.document.value.currentState, 1, 240)
    && (patch.plan.Some? ==>
          |patch.plan.value| <= 20 && forall i :: 0 <= i < |patch.plan.value| ==> Between(patch.plan.value[i], 1, 180))
    && PatchIsProper(m.document.value.items, patch.upserts, patch.retirements)
    && forall i :: 0 <= i < |patch.feedback| ==>
         FeedbackIsProper(m.document.value.items, patch.upserts, m.entries, patch.feedback[i])
  }

  /** What the new document holds, field by field. */
  ghost predicate DocumentFollows(olds: Document, patch: Patch, run: string, doc: Document) {
    && doc.currentState == (if patch.currentState.Some? then Trim(patch.currentState.value) else olds.currentState)
    && (patch.plan.None? ==> doc.plan == olds.plan)
    && (patch.plan.Some? ==>
          |doc.plan| == |patch.plan.value| && forall i :: 0 <= i < |doc.plan| ==> doc.plan[i] == Trim(patch.plan.value[i]))
    && Ids(olds.items) <= Ids(doc.items) && Distinct(Ids(doc.items))
    && (forall k :: 0 <= k < |patch.upserts| ==> Trim(patch.upserts[k].id) in Ids(doc.items))
    && forall i :: 0 <= i < |doc.items| ==> CameFrom(olds.items, patch.upserts, patch.retirements, run, doc.items[i])
  }

  /** This disposition is the last one of its note. */
  predicate LastOnNote(fs: seq<Feedback>, k: nat) {
    k < |fs| && forall j :: k < j < |fs| ==> fs[j].event != fs[k].event
  }

  predicate Acknowledges(fs: seq<Feedback>, event: int) {
    exists k :: 0 <= k < |fs| && fs[k].event == event
  }

  /** What the store holds after an accepted commit, field by field. */
  ghost predicate CommitFollows(m: Memory, patch: Patch, run: string, next: Memory) {
    && next.revision == m.revision + 1 && !next.blocked && next.lastRun == run && next.outcome == Trim(patch.outcome)
    && m.document.Some? && next.document.Some? && DocumentFollows(m.document.value, patch, run, next.document.value)
    && next.entries == m.entries
    && (forall k: nat :: LastOnNote(patch.feedback, k) ==>
          var f := patch.feedback[k];
          f.event in next.receipts && next.receipts[f.event] == Receipt(f.disposition, f.itemIds, f.supersededBy, m.revision + 1))
    && (forall e :: !Acknowledges(patch.feedback, e) ==>
          (e in next.receipts <==> e in m.receipts) && (e in m.receipts ==> next.receipts[e] == m.receipts[e]))
  }

  lemma {:induction false} StepsPass(steps: seq<string>)
    ensures StepsError(steps).None? <==> forall i :: 0 <= i < |steps| ==> Between(steps[i], 1, 180)
  {
    if steps != [] {
      StepsPass(steps[1..]);
      assert forall i :: 1 <= i < |steps| ==> steps[i] == steps[1..][i - 1];
      assert forall i :: 0 <= i < |steps[1..]| ==> steps[1..][i] == steps[i + 1];
    }
  }

  lemma {:induction false} FeedbackPasses(fs: seq<Feedback>, ids: seq<string>)
    ensures FirstFeedbackError(fs, ids).None? <==> forall i :: 0 <= i < |fs| ==> FeedbackError(fs[i], ids).None?
  {
    if fs != [] {
      FeedbackPasses(fs[1..], ids);
      assert forall i :: 1 <= i < |fs| ==> fs[i] == fs[1..][i - 1];
      assert forall i :: 0 <= i < |fs[1..]| ==> fs[1..][i] == fs[i + 1];
    }
  }

  predicate OnOrdinary(f: Feedback, entries: map<int, Entry>) {
    && f.event in entries && entries[f.event] == OrdinaryFeedback
    && (f.disposition == Superseded ==> f.supersededBy in entries && entries[f.supersededBy] == OrdinaryFeedback)
  }

  lemma {:induction false} OrdinaryPasses(fs: seq<Feedback>, entries: map<int, Entry>)
    ensures NotOrdinary(fs, entries).None? <==> forall i :: 0 <= i < |fs| ==> OnOrdinary(fs[i], entries)
  {
    if fs != [] {
      OrdinaryPasses(fs[1..], entries);
      assert forall i :: 1 <= i < |fs| ==> fs[i] == fs[1..][i - 1];
      assert forall i :: 0 <= i < |fs[1..]| ==> fs[1..][i] == fs[i + 1];
    }
  }

  lemma OneFeedbackPassesExactly(items: seq<Item>, upserts: seq<Upsert>, ids: seq<string>, entries: map<int, Entry>, f: Feedback)
    requires forall id :: id in ids <==> Known(items, upserts, id)
    ensures FeedbackError(f, ids).None? && OnOrdinary(f, entries) <==> FeedbackIsProper(items, upserts, entries, f)
  {
    assert (forall id :: id in f.itemIds ==> id in ids)
        <==> forall i :: 0 <= i < |f.itemIds| ==> Known(items, upserts, f.itemIds[i]);
  }

  lemma {:induction false} FeedbackPassesExactly(items: seq<Item>, upserts: seq<Upsert>, ids: seq<string>,
      entries: map<int, Entry>, fs: seq<Feedback>)
    requires forall id :: id in ids <==> Known(items, upserts, id)
    ensures FirstFeedbackError(fs, ids).None? && NotOrdinary(fs, entries).None? <==>
      forall i :: 0 <= i < |fs| ==> FeedbackIsProper(items, upserts, entries, fs[i])
  {
    FeedbackPasses(fs, ids);
    OrdinaryPasses(fs, entries);
    forall i | 0 <= i < |fs|
      ensures FeedbackError(fs[i], ids).None? && OnOrdinary(fs[i], entries) <==> FeedbackIsProper(items, upserts, entries, fs[i])
    {
      OneFeedbackPassesExactly(items, upserts, ids, entries, fs[i]);
    }
  }

  lemma {:induction false} ReceiptsFollow(receipts: map<int, Receipt>, fs: seq<Feedback>, revision: nat, e: int)
    ensures var now := AddReceipts(receipts, fs, revision);
      && (!Acknowledges(fs, e) ==> (e in now <==> e in receipts) && (e in receipts ==> now[e] == receipts[e]))
      && (forall k: nat :: LastOnNote(fs, k) && fs[k].event == e ==>
            e in now && now[e] == Receipt(fs[k].disposition, fs[k].itemIds, fs[k].supersededBy, revision))
    decreases |fs|
  {
    if fs != [] {
      var rest, next := fs[1..], receipts[fs[0].event := ReceiptOf(fs[0], revision)];
      ReceiptsFollow(next, rest, revision, e);
      assert forall j :: 0 <= j < |rest| ==> rest[j] == fs[j + 1];
      assert Acknowledges(fs, e) <==> fs[0].event == e || Acknowledges(rest, e) by {
        if Acknowledges(rest, e) {
          var j :| 0 <= j < |rest| && rest[j].event == e;
          assert fs[j + 1].event == e;
        }
      }
      forall k: nat | LastOnNote(fs, k) && fs[k].event == e
        ensures var now := AddReceipts(receipts, fs, revision);
          e in now && now[e] == Receipt(fs[k].disposition, fs[k].itemIds, fs[k].supersededBy, revision)
      {
        if k == 0 {
          assert !Acknowledges(rest, e);
        } else {
          assert LastOnNote(rest, k - 1) && rest[k - 1] == fs[k];
        }
      }
    }
  }

  /** The document the patch asks for, around the merged items. */
  function Asked(olds: Document, patch: Patch, merged: seq<Item>): Document {
    Document(if patch.currentState.Some? then Trim(patch.currentState.value) else olds.currentState,
             if patch.plan.Some? then TrimAll(patch.plan.value) else olds.plan, merged)
  }

  lemma MergedIsKnown(items: seq<Item>, patch: Patch, run: string)
    requires Distinct(Ids(items)) && Merge(items, patch.upserts, patch.retirements, run).Ok?
    ensures var merged := Merge(items, patch.upserts, patch.retirements, run).value;
      && (forall id :: id in Ids(merged) <==> Known(items, patch.upserts, id))
      && (forall k :: 0 <= k < |patch.upserts| ==> Trim(patch.upserts[k].id) in Ids(merged))
  {
    var merged := Merge(items, patch.upserts, patch.retirements, run).value;
    MergeKeepsAndAppendsIds(items, patch.upserts, patch.retirements, run);
    PutAllIds(items, ItemsOf(patch.upserts, run));
    forall id ensures id in Ids(merged) <==> Known(items, patch.upserts, id) {
      KnownIsThere(items, patch.upserts, run, id);
    }
    forall k | 0 <= k < |patch.upserts| ensures Trim(patch.upserts[k].id) in Ids(merged) {
      assert Known(items, patch.upserts, Trim(patch.upserts[k].id));
    }
  }

  lemma PatchFollows(olds: Document, patch: Patch, run: string)
    requires Distinct(Ids(olds.items)) && Merge(olds.items, patch.upserts, patch.retirements, run).Ok?
    ensures DocumentFollows(olds, patch, run, Asked(olds, patch, Merge(olds.items, patch.upserts, patch.retirements, run).value))
  {
    MergeKeepsAndAppendsIds(olds.items, patch.upserts, patch.retirements, run);
    MergedItemsCameFrom(olds.items, patch.upserts, patch.retirements, run);
    MergedIsKnown(olds.items, patch, run);
  }

  /** Checking a text again after trimming it makes no difference. */
  lemma CheckedTwice(value: string, limit: nat)
    ensures TextOk(value, limit, true) <==> Between(value, 1, limit)
    ensures TextOk(Trim(value), limit, true) <==> Between(value, 1, limit)
  {
    TrimmedIsFixed(Trim(value));
  }

  lemma PatchedExactly(olds: Document, patch: Patch, run: string, size: Document -> nat, merged: seq<Item>)
    requires Merge(olds.items, patch.upserts, patch.retirements, run) == Ok(merged)
    ensures var c, doc := PatchDocument(olds, patch, run, size), Asked(olds, patch, merged);
      && (c.Ok? ==> c.value == doc)
      && (c.Ok? <==>
            && Between(if patch.currentState.Some? then patch.currentState.value else olds.currentState, 1, 240)
            && (patch.plan.Some? ==> |patch.plan.value| <= 20 && StepsError(patch.plan.value).None?)
            && FirstFeedbackError(patch.feedback, Ids(merged)).None? && size(doc) <= 32 * 1024)
  {
    CheckedTwice(if patch.currentState.Some? then patch.currentState.value else olds.currentState, MAX_STATE);
    var bad := FirstFeedbackError(patch.feedback, Ids(merged));
    assert Asked(olds, patch, merged).items == merged;
  }

  /** The checks, one by one, on a patch whose entries are proper. */
  lemma CheckedExactly(m: Memory, patch: Patch, run: string, size: Document -> nat, merged: seq<Item>)
    requires m.document.Some? && Merge(m.document.value.items, patch.upserts, patch.retirements, run) == Ok(merged)
    ensures var c, doc := Checked(m.revision, m.document, patch, Some(run), size), Asked(m.document.value, patch, merged);
      && (c.Ok? ==> c.value == doc)
      && (c.Ok? <==>
            && Between(patch.outcome, 1, 240) && m.revision == patch.baseRevision
            && Between(if patch.currentState.Some? then patch.currentState.value else m.document.value.currentState, 1, 240)
            && (patch.plan.Some? ==> |patch.plan.value| <= 20 && StepsError(patch.plan.value).None?)
            && FirstFeedbackError(patch.feedback, Ids(merged)).None? && size(doc) <= 32 * 1024)
  {
    PatchedExactly(m.document.value, patch, run, size, merged);
  }

  lemma StoredFollows(m: Memory, patch: Patch, run: string, doc: Document)
    requires m.document.Some? && DocumentFollows(m.document.value, patch, run, doc)
    ensures CommitFollows(m, patch, run, Stored(m, patch, run, doc))
  {
    var receipts := AddReceipts(m.receipts, patch.feedback, m.revision + 1);
    forall e ensures !Acknowledges(patch.feedback, e) ==>
      (e in receipts <==> e in m.receipts) && (e in m.receipts ==> receipts[e] == m.receipts[e])
    {
      ReceiptsFollow(m.receipts, patch.feedback, m.revision + 1, e);
    }
    forall k: nat | LastOnNote(patch.feedback, k)
      ensures var f := patch.feedback[k];
        f.event in receipts && receipts[f.event] == Receipt(f.disposition, f.itemIds, f.supersededBy, m.revision + 1)
    {
      ReceiptsFollow(m.receipts, patch.feedback, m.revision + 1, patch.feedback[k].event);
    }
  }

  /**
   * A commit that is not proper is refused. A proper one makes the document it
   * asks for, is accepted exactly if that fits the budget, and then stores it.
   */
  lemma CommitIsAcceptedExactly(m: Memory, patch: Patch, run: Option<string>, size: Document -> nat)
    requires Sound(m)
    ensures var c := Committed(m, patch, run, size);
      && (!IsProper(m, patch, run) ==> c.Err?)
      && (IsProper(m, patch, run) ==>
            exists doc :: DocumentFollows(m.document.value, patch, run.value, doc)
              && (c.Ok? <==> size(doc) <= 32 * 1024)
              && (c.Ok? ==> c.value.document == Some(doc) && CommitFollows(m, patch, run.value, c.value)))
  {
    if run.Some? && m.document.Some? {
      var olds := m.document.value;
      MergeIsAcceptedExactly(olds.items, patch.upserts, patch.retirements, run.value);
      if PatchIsProper(olds.items, patch.upserts, patch.retirements) {
        var merged := Merge(olds.items, patch.upserts, patch.retirements, run.value).value;
        var doc := Asked(olds, patch, merged);
        PatchFollows(olds, patch, run.value);
        ProperPasses(m, patch, run.value, size, merged);
        StoredFollows(m, patch, run.value, doc);
      }
    }
  }

  lemma ProperPasses(m: Memory, patch: Patch, run: string, size: Document -> nat, merged: seq<Item>)
    requires m.document.Some? && Distinct(Ids(m.document.value.items))
    requires Merge(m.document.value.items, patch.upserts, patch.retirements, run) == Ok(merged)
    ensures var c, doc := Committed(m, patch, Some(run), size), Asked(m.document.value, patch, merged);
      && (c.Ok? <==> IsProper(m, patch, Some(run)) && size(doc) <= 32 * 1024)
      && (c.Ok? ==> c.value == Stored(m, patch, run, doc))
  {
    var olds := m.document.value;
    if patch.plan.Some? { StepsPass(patch.plan.value); }
    MergeIsAcceptedExactly(olds.items, patch.upserts, patch.retirements, run);
    MergedIsKnown(olds.items, patch, run);
    FeedbackPassesExactly(olds.items, patch.upserts, Ids(merged), m.entries, patch.feedback);
    CheckedExactly(m, patch, run, size, merged);
  }

  /** What the store holds after a repair, field by field. */
  ghost predicate RepairFollows(m: Memory, e: Evidence, next: Memory) {
    && next.revision == m.revision + 1 && !next.blocked
    && next.lastRun == "repair" && next.outcome == "Goal memory rebuilt from saved Podiom history."
    && next.document.Some? && Recalls(m.document, e, next.document.value)
    && next.receipts == m.receipts && next.entries == m.entries && next.cited == m.cited
  }

  /** The stored memory of one goal, as an object its operations update. */
  class GoalMemoryTable {
    var revision: nat
    var document: Option<Document>
    var blocked: bool
    var lastRun: string
    var outcome: string
    var receipts: map<int, Receipt>
    var entries: map<int, Entry>
    ghost var cited: set<string>

    ghost function State(): Memory
      reads this
    {
      Memory(revision, document, blocked, lastRun, outcome, receipts, entries, cited)
    }

    ghost predicate Valid()
      reads this
    {
      Sound(State())
    }

    constructor ()
      ensures State() == NEW && Valid() && CitedPresent(State())
    {
      revision, document, blocked, lastRun, outcome := 0, Some(Document("", [], [])), false, "", "";
      receipts, entries, cited := map[], map[], {};
    }

    /** All or nothing: a refused commit leaves every field as it was, and an accepted one every cited item in place. */
    method Commit(patch: Patch, run: Option<string>, size: Document -> nat) returns (refused: Option<MemoryError>)
      requires Valid()
      modifies this
      ensures Valid() && (old(CitedPresent(State())) ==> CitedPresent(State()))
      ensures var c := old(Committed(State(), patch, run, size));
        && (c.Ok? ==> refused.None? && State() == c.value)
        && (c.Err? ==> refused == Some(c.error) && State() == old(State()))
      ensures refused.None? ==>
        old(IsProper(State(), patch, run)) && CommitFollows(old(State()), patch, run.value, State()) && size(document.value) <= 32 * 1024
    {
      NextKeepsSound(State(), Event.Commit(patch, run), size);
      CommitIsAcceptedExactly(State(), patch, run, size);
      if CitedPresent(State()) { NextKeepsCitedExactly(State(), Event.Commit(patch, run), size); }
      var checked := CheckCommit(revision, document, patch, run, size);
      if checked.Err? { return Some(checked.error); }
      refused := Store(patch, run.value, checked.value);
    }

    /** The store's side of a commit: one transaction. */
    method Store(patch: Patch, run: string, doc: Document) returns (refused: Option<MemoryError>)
      modifies this
      ensures refused == old(NotOrdinary(patch.feedback, entries))
      ensures State() == if refused.None? then Stored(old(State()), patch, run, doc) else old(State())
    {
      var bad := NotOrdinary(patch.feedback, entries);
      if bad.Some? { return bad; }
      StoreReceipts(patch.feedback, revision + 1);
      cited := cited + Cites(patch.feedback);
      revision, document, blocked := revision + 1, Some(doc), false;
      lastRun, outcome := run, Trim(patch.outcome);
      refused := None;
    }

    method StoreReceipts(fs: seq<Feedback>, next: nat)
      modifies this`receipts
      ensures receipts == old(AddReceipts(receipts, fs, next))
    {
      for i := 0 to |fs|
        invariant old(AddReceipts(receipts, fs, next)) == AddReceipts(receipts, fs[i..], next)
      {
        assert fs[i..][0] == fs[i] && fs[i..][1..] == fs[i + 1..];
        receipts := receipts[fs[i].event := ReceiptOf(fs[i], next)];
      }
    }

    /** The draft is built, trimmed and confirmed before anything is stored. */
    method Repair(e: Evidence, confirmed: bool, size: Document -> nat) returns (refused: Option<MemoryError>)
      requires Valid()
      modifies this
      ensures Valid() && (old(document).Some? && old(CitedPresent(State())) ==> CitedPresent(State()))
      ensures var c := old(Repaired(State(), e, confirmed, size));
        && (c.Ok? ==> refused.None? && State() == c.value)
        && (c.Err? ==> refused == Some(c.error) && State() == old(State()))
      ensures refused.None? ==> RepairFollows(old(State()), e, State()) && size(document.value) <= 32 * 1024
      ensures refused.None? ==> confirmed
      ensures refused == Some(NotBlocked) <==> !old(blocked) && old(document).Some?
      ensures refused.Some? && refused.value != NotBlocked ==> refused == Some(TooLarge) || (refused == Some(NotConfirmed) && !confirmed)
    {
      NextKeepsSound(State(), Event.Repair(e, confirmed), size);
      if CitedPresent(State()) { NextKeepsCitedExactly(State(), Event.Repair(e, confirmed), size); }
      if !blocked && document.Some? { return Some(NotBlocked); }
      var rebuilt := Rebuild(document, e, size);
      if rebuilt.None? { return Some(TooLarge); }
      if !confirmed { return Some(NotConfirmed); }
      Publish(rebuilt.value);
      refused := None;
    }

    method Publish(doc: Document)
      modifies this
      ensures State() == Published(old(State()), doc)
    {
      revision, document, blocked := revision + 1, Some(doc), false;
      lastRun, outcome := "repair", REPAIRED;
    }
  }

  /** The checks before the store is called: what passes them loses no item, fits the budget, and holds what it cites. */
  method CheckCommit(revision: nat, document: Option<Document>, patch: Patch, run: Option<string>, size: Document -> nat)
    returns (r: Result<Document, MemoryError>)
    ensures r == Checked(revision, document, patch, run, size)
    ensures r.Ok? ==> document.Some? && patch.baseRevision == revision && size(r.value) <= MAX_BYTES
    ensures r.Ok? && Distinct(Ids(document.value.items)) ==>
      && Ids(document.value.items) <= Ids(r.value.items) && Distinct(Ids(r.value.items))
      && forall id :: id in Cites(patch.feedback) ==> id in Ids(r.value.items)
    ensures r.Ok? && Distinct(Ids(document.value.items)) ==>
      run.Some? && Between(patch.outcome, 1, 240) && DocumentFollows(document.value, patch, run.value, r.value)
  {
    if Checked(revision, document, patch, run, size).Ok? && Distinct(Ids(document.value.items)) {
      CheckedKeepsItems(revision, document, patch, run, size);
      CheckedFollows(revision, document, patch, run, size);
      AcceptedFeedbackIsGrounded(patch.feedback, Ids(Checked(revision, document, patch, run, size).value.items));
    }
    r := RunChecks(revision, document, patch, run, size);
  }

  lemma CheckedFollows(revision: nat, document: Option<Document>, patch: Patch, run: Option<string>, size: Document -> nat)
    requires Checked(revision, document, patch, run, size).Ok? && Distinct(Ids(document.value.items))
    ensures run.Some? && Between(patch.outcome, 1, 240)
    ensures DocumentFollows(document.value, patch, run.value, Checked(revision, document, patch, run, size).value)
  {
    var merged := Merge(document.value.items, patch.upserts, patch.retirements, run.value).value;
    PatchFollows(document.value, patch, run.value);
    PatchedExactly(document.value, patch, run.value, size, merged);
  }

  method RunChecks(revision: nat, document: Option<Document>, patch: Patch, run: Option<string>, size: Document -> nat)
    returns (r: Result<Document, MemoryError>)
    ensures r == Checked(revision, document, patch, run, size)
    ensures r.Ok? ==> document.Some? && patch.baseRevision == revision && size(r.value) <= MAX_BYTES
  {
    if run.None? { return Err(NotTheLeadRun); }
    if !TextOk(patch.outcome, MAX_OUTCOME, true) { return Err(BadText("outcome")); }
    if document.None? { return Err(Unreadable); }
    if revision != patch.baseRevision { return Err(Stale); }
    r := BuildDocument(document.value, patch, run.value, size);
  }

  /** The validation and merging part of CommitGoalMemory. */
  method BuildDocument(doc: Document, patch: Patch, run: string, size: Document -> nat) returns (r: Result<Document, MemoryError>)
    ensures r == PatchDocument(doc, patch, run, size)
  {
    var state, plan := doc.currentState, doc.plan;
    if patch.currentState.Some? {
      if !TextOk(patch.currentState.value, MAX_STATE, true) { return Err(BadText("current_state")); }
      state := Trim(patch.currentState.value);
    }
    if patch.plan.Some? {
      if |patch.plan.value| > MAX_STEPS { return Err(TooManySteps); }
      var bad := StepsError(patch.plan.value);
      if bad.Some? { return Err(bad.value); }
      plan := TrimAll(patch.plan.value);
    }
    var merged := MergeItems(doc.items, patch.upserts, patch.retirements, run);
    if merged.Err? { return Err(merged.error); }
    if !TextOk(state, MAX_STATE, true) { return Err(BadText("current_state")); }
    var bad := FirstFeedbackError(patch.feedback, Ids(merged.value));
    if bad.Some? { return Err(bad.value); }
    var patched := Document(state, plan, merged.value);
    if size(patched) > MAX_BYTES { return Err(TooLarge); }
    r := Ok(patched);
  }

  // ------------------------------------------------------------------ runs

  /** What can happen to a goal's memory; Corrupt stands for a stored document that no longer decodes. */
  datatype Event =
    | Commit(patch: Patch, run: Option<string>)
    | Repair(evidence: Evidence, confirmed: bool)
    | Block
    | Corrupt
    | NewEntry(id: int, entry: Entry)
    | Pin(id: int, pinned: bool)

  function Next(m: Memory, e: Event, size: Document -> nat): Memory {
    match e
    case Commit(patch, run) =>
      var c := Committed(m, patch, run, size);
      if c.Ok? then c.value else m
    case Repair(evidence, confirmed) =>
      var c := Repaired(m, evidence, confirmed, size);
      if c.Ok? then c.value else m
    case Block => m.(blocked := true)
    case Corrupt => m.(document := None)
    case NewEntry(id, entry) => if id in m.entries then m else m.(entries := m.entries[id := entry])
    case Pin(id, pinned) =>
      if id in m.entries && !m.entries[id].OtherEntry?
      then m.(entries := m.entries[id := if pinned then PinnedFeedback else OrdinaryFeedback]) else m
  }

  function After(m: Memory, events: seq<Event>, size: Document -> nat): Memory
    decreases |events|
  {
    if events == [] then m else After(Next(m, events[0], size), events[1..], size)
  }

  predicate ReceiptOk(event: int, r: Receipt, entries: map<int, Entry>, cited: set<string>) {
    match r.disposition
    case Superseded => event < r.supersededBy && r.supersededBy in entries
    case UnknownDisposition => false
    case _ => r.itemIds != [] && forall id :: id in r.itemIds ==> id in cited
  }

  ghost predicate ReceiptsOk(receipts: map<int, Receipt>, entries: map<int, Entry>, cited: set<string>) {
    forall e :: e in receipts ==> ReceiptOk(e, receipts[e], entries, cited)
  }

  ghost predicate Sound(m: Memory) {
    && (m.document.Some? ==> Distinct(Ids(m.document.value.items)))
    && ReceiptsOk(m.receipts, m.entries, m.cited)
  }

  lemma {:induction false} AcceptedFeedbackIsGrounded(fs: seq<Feedback>, ids: seq<string>)
    requires FirstFeedbackError(fs, ids).None?
    ensures forall id :: id in Cites(fs) ==> id in ids
    ensures forall i :: 0 <= i < |fs| ==> FeedbackError(fs[i], ids).None?
  {
    if fs != [] { AcceptedFeedbackIsGrounded(fs[1..], ids); }
  }

  lemma {:induction false} OrdinaryThroughout(fs: seq<Feedback>, entries: map<int, Entry>)
    requires NotOrdinary(fs, entries).None?
    ensures forall i :: 0 <= i < |fs| ==>
      IsOrdinary(entries, fs[i].event) && (fs[i].disposition.Superseded? ==> IsOrdinary(entries, fs[i].supersededBy))
  {
    if fs != [] { OrdinaryThroughout(fs[1..], entries); }
  }

  /** A receipt after a commit is an old one, or stands for one of the commit's dispositions. */
  lemma {:induction false} ReceiptOrigin(receipts: map<int, Receipt>, fs: seq<Feedback>, revision: nat,
      event: int) returns (i: int)
    requires event in AddReceipts(receipts, fs, revision)
    ensures i < |fs|
    ensures i < 0 ==> event in receipts && AddReceipts(receipts, fs, revision)[event] == receipts[event]
    ensures i >= 0 ==> fs[i].event == event && AddReceipts(receipts, fs, revision)[event] == ReceiptOf(fs[i], revision)
    decreases |fs|
  {
    i := -1;
    if fs != [] {
      var j := ReceiptOrigin(receipts[fs[0].event := ReceiptOf(fs[0], revision)], fs[1..], revision, event);
      i := if j >= 0 then j + 1 else if fs[0].event == event then 0 else -1;
    }
  }

  lemma {:induction false} CitesContain(fs: seq<Feedback>, i: nat)
    requires i < |fs| && (fs[i].disposition.Incorporated? || fs[i].disposition.Completed?)
    ensures forall id :: id in fs[i].itemIds ==> id in Cites(fs)
  {
    if i > 0 { CitesContain(fs[1..], i - 1); }
  }

  /** A commit's document keeps every id the old one had, and holds every id its feedback cites. */
  lemma CheckedKeepsItems(revision: nat, document: Option<Document>, patch: Patch, run: Option<string>, size: Document -> nat)
    requires Checked(revision, document, patch, run, size).Ok?
    requires document.Some? ==> Distinct(Ids(document.value.items))
    ensures document.Some? && run.Some?
    ensures var doc := Checked(revision, document, patch, run, size).value;
      && Ids(document.value.items) <= Ids(doc.items)
      && Distinct(Ids(doc.items))
      && FirstFeedbackError(patch.feedback, Ids(doc.items)).None?
  {
    MergeKeepsAndAppendsIds(document.value.items, patch.upserts, patch.retirements, run.value);
  }

  /** What an accepted disposition stores is sound. */
  lemma {:induction false} StoredReceiptIsOk(fs: seq<Feedback>, i: nat, entries: map<int, Entry>,
      ids: seq<string>, cited: set<string>, revision: nat)
    requires i < |fs| && FirstFeedbackError(fs, ids).None? && NotOrdinary(fs, entries).None?
    ensures ReceiptOk(fs[i].event, ReceiptOf(fs[i], revision), entries, cited + Cites(fs))
  {
    AcceptedFeedbackIsGrounded(fs, ids);
    OrdinaryThroughout(fs, entries);
    assert FeedbackError(fs[i], ids).None?;
    if !fs[i].disposition.Superseded? { CitesContain(fs, i); }
  }

  lemma {:induction false} CommittedReceiptsAreOk(receipts: map<int, Receipt>, fs: seq<Feedback>,
      entries: map<int, Entry>, ids: seq<string>,
                               cited: set<string>, revision: nat)
    requires ReceiptsOk(receipts, entries, cited)
    requires FirstFeedbackError(fs, ids).None? && NotOrdinary(fs, entries).None?
    ensures ReceiptsOk(AddReceipts(receipts, fs, revision), entries, cited + Cites(fs))
  {
    var r := AddReceipts(receipts, fs, revision);
    forall e | e in r ensures ReceiptOk(e, r[e], entries, cited + Cites(fs)) {
      var i := ReceiptOrigin(receipts, fs, revision, e);
      if i >= 0 { StoredReceiptIsOk(fs, i, entries, ids, cited, revision); }
    }
  }

  lemma StoredKeepsSound(m: Memory, patch: Patch, run: string, doc: Document)
    requires Sound(m) && Distinct(Ids(doc.items))
    requires FirstFeedbackError(patch.feedback, Ids(doc.items)).None? && NotOrdinary(patch.feedback, m.entries).None?
    ensures Sound(Stored(m, patch, run, doc))
  {
    CommittedReceiptsAreOk(m.receipts, patch.feedback, m.entries, Ids(doc.items), m.cited, m.revision + 1);
  }

  lemma CommitKeepsSound(m: Memory, patch: Patch, run: Option<string>, size: Document -> nat)
    requires Sound(m)
    ensures var c := Committed(m, patch, run, size); c.Ok? ==> Sound(c.value)
  {
    if Committed(m, patch, run, size).Ok? {
      CheckedKeepsItems(m.revision, m.document, patch, run, size);
      StoredKeepsSound(m, patch, run.value, Checked(m.revision, m.document, patch, run, size).value);
    }
  }

  lemma RepairKeepsSound(m: Memory, e: Evidence, confirmed: bool, size: Document -> nat)
    requires Sound(m) && Repaired(m, e, confirmed, size).Ok?
    ensures Sound(Repaired(m, e, confirmed, size).value)
  {
    RepairPreservesAndFits(m.document, e, size);
  }

  lemma NextKeepsSound(m: Memory, e: Event, size: Document -> nat)
    requires Sound(m)
    ensures Sound(Next(m, e, size))
  {
    match e
    case Commit(patch, run) =>
      if Committed(m, patch, run, size).Ok? { CommitKeepsSound(m, patch, run, size); }
    case Repair(evidence, confirmed) =>
      if Repaired(m, evidence, confirmed, size).Ok? { RepairKeepsSound(m, evidence, confirmed, size); }
    case Block =>
    case Corrupt =>
    case NewEntry(id, entry) =>
    case Pin(id, pinned) =>
  }

  /**
   * Over every run of commits, repairs, blocks, damage and new notes: item ids
   * stay unique, every receipt names cited items or a newer known note, and
   * what was cited stays on record.
   */
  lemma {:induction false} EveryRunIsSound(m: Memory, events: seq<Event>, size: Document -> nat)
    requires Sound(m)
    ensures Sound(After(m, events, size))
    ensures m.cited <= After(m, events, size).cited
    decreases |events|
  {
    if events != [] {
      NextKeepsSound(m, events[0], size);
      EveryRunIsSound(Next(m, events[0], size), events[1..], size);
    }
  }

  // -------------------------------------------------------- superseded chains

  /** A path of superseded links: each note's receipt says the next one supersedes it. */
  ghost predicate Linked(receipts: map<int, Receipt>, path: seq<int>) {
    forall i :: 0 <= i < |path| - 1 ==>
      path[i] in receipts && receipts[path[i]].disposition.Superseded? && receipts[path[i]].supersededBy == path[i + 1]
  }

  predicate Ends(receipts: map<int, Receipt>, event: int) {
    event in receipts ==> !receipts[event].disposition.Superseded?
  }

  function Newer(entries: map<int, Entry>, event: int): set<int> {
    set id | id in entries && event < id
  }

  lemma {:induction false} LinksClimbToAnEnd(m: Memory, event: int) returns (path: seq<int>)
    requires Sound(m)
    ensures path != [] && path[0] == event && Linked(m.receipts, path) && Ends(m.receipts, path[|path| - 1])
    ensures forall i, j :: 0 <= i < j < |path| ==> path[i] < path[j]
    decreases Newer(m.entries, event)
  {
    path := [event];
    if !Ends(m.receipts, event) {
      assert ReceiptOk(event, m.receipts[event], m.entries, m.cited);
      var next := m.receipts[event].supersededBy;
      assert next in Newer(m.entries, event) && next !in Newer(m.entries, next);
      var rest := LinksClimbToAnEnd(m, next);
      assert forall j :: 0 <= j < |rest| ==> rest[0] <= rest[j];
      path := [event] + rest;
      assert forall i :: 0 <= i < |path| - 1 ==> path[i + 1] == rest[i];
    }
  }

  /**
   * Whatever a run did, following the superseded links from any note strictly
   * climbs, so it never cycles, and it reaches a note no other one supersedes.
   */
  lemma SupersededLinksEnd(events: seq<Event>, size: Document -> nat, event: int) returns (path: seq<int>)
    ensures var receipts := After(NEW, events, size).receipts;
      path != [] && path[0] == event && Linked(receipts, path) && Ends(receipts, path[|path| - 1])
    ensures forall i, j :: 0 <= i < j < |path| ==> path[i] < path[j]
  {
    EveryRunIsSound(NEW, events, size);
    path := LinksClimbToAnEnd(After(NEW, events, size), event);
  }

  // ------------------------------------------------- what becomes of citations

  /** Every id ever cited is in the document, as long as that can be read. */
  ghost predicate CitedPresent(m: Memory) {
    m.document.Some? ==> forall id :: id in m.cited ==> id in Ids(m.document.value.items)
  }

  /** If this event is a repair that starts from nothing, it remembers every id cited so far. */
  ghost predicate RemembersCited(m: Memory, e: Event, size: Document -> nat) {
    e.Repair? && m.document.None? && Repaired(m, e.evidence, e.confirmed, size).Ok? ==>
      forall id :: id in m.cited ==> Remembers(e.evidence, size, id)
  }

  ghost predicate RepairsRemember(m: Memory, events: seq<Event>, size: Document -> nat)
    decreases |events|
  {
    events != [] ==> RemembersCited(m, events[0], size) && RepairsRemember(Next(m, events[0], size), events[1..], size)
  }

  /** The cited ids are there after each event of a run. */
  ghost predicate AlwaysPresent(m: Memory, events: seq<Event>, size: Document -> nat)
    decreases |events|
  {
    CitedPresent(m) && (events != [] ==> AlwaysPresent(Next(m, events[0], size), events[1..], size))
  }

  lemma CommitKeepsCited(m: Memory, patch: Patch, run: Option<string>, size: Document -> nat)
    requires Sound(m) && CitedPresent(m)
    ensures var c := Committed(m, patch, run, size); c.Ok? ==> CitedPresent(c.value)
  {
    if Committed(m, patch, run, size).Ok? {
      CheckedKeepsItems(m.revision, m.document, patch, run, size);
      var doc := Checked(m.revision, m.document, patch, run, size).value;
      AcceptedFeedbackIsGrounded(patch.feedback, Ids(doc.items));
    }
  }

  /** A repair of a readable document keeps what is cited; one that starts from nothing keeps what it remembers. */
  lemma RepairKeepsCitedExactly(m: Memory, e: Evidence, confirmed: bool, size: Document -> nat)
    requires Sound(m) && CitedPresent(m) && Repaired(m, e, confirmed, size).Ok?
    ensures CitedPresent(Repaired(m, e, confirmed, size).value) <==> RemembersCited(m, Repair(e, confirmed), size)
  {
    var doc := Repaired(m, e, confirmed, size).value.document.value;
    if m.document.Some? {
      RepairPreservesAndFits(m.document, e, size);
      assert Ids(m.document.value.items) <= Ids(doc.items);
    } else {
      forall id | id in m.cited ensures id in Ids(doc.items) <==> Remembers(e, size, id) {
        RebuildRemembersExactly(e, size, id);
      }
    }
  }

  lemma NextKeepsCitedExactly(m: Memory, e: Event, size: Document -> nat)
    requires Sound(m) && CitedPresent(m)
    ensures CitedPresent(Next(m, e, size)) <==> RemembersCited(m, e, size)
  {
    match e
    case Commit(patch, run) => if Committed(m, patch, run, size).Ok? { CommitKeepsCited(m, patch, run, size); }
    case Repair(evidence, confirmed) =>
      if Repaired(m, evidence, confirmed, size).Ok? { RepairKeepsCitedExactly(m, evidence, confirmed, size); }
    case Block =>
    case Corrupt =>
    case NewEntry(id, entry) =>
    case Pin(id, pinned) =>
  }

  /**
   * Every item id an accepted disposition ever cited is in the document at every
   * point of a run where that can be read, if and only if each repair that had
   * to start from nothing remembers the ids cited before it.
   */
  lemma {:induction false} CitedItemsSurviveExactly(m: Memory, events: seq<Event>, size: Document -> nat)
    requires Sound(m) && CitedPresent(m)
    ensures AlwaysPresent(m, events, size) <==> RepairsRemember(m, events, size)
    decreases |events|
  {
    if events != [] {
      var next := Next(m, events[0], size);
      NextKeepsCitedExactly(m, events[0], size);
      NextKeepsSound(m, events[0], size);
      if CitedPresent(next) {
        CitedItemsSurviveExactly(next, events[1..], size);
      } else {
        assert !AlwaysPresent(next, events[1..], size);
      }
    }
  }

  /** No repair of the run started from a document that could not be decoded. */
  predicate RepairsReadable(m: Memory, events: seq<Event>, size: Document -> nat)
    decreases |events|
  {
    events != [] ==>
      && (events[0].Repair? && Repaired(m, events[0].evidence, events[0].confirmed, size).Ok? ==> m.document.Some?)
      && RepairsReadable(Next(m, events[0], size), events[1..], size)
  }

  lemma {:induction false} ReadableRepairsRemember(m: Memory, events: seq<Event>, size: Document -> nat)
    requires RepairsReadable(m, events, size)
    ensures RepairsRemember(m, events, size)
    decreases |events|
  {
    if events != [] { ReadableRepairsRemember(Next(m, events[0], size), events[1..], size); }
  }

  lemma {:induction false} PresentAtTheEnd(m: Memory, events: seq<Event>, size: Document -> nat)
    requires AlwaysPresent(m, events, size)
    ensures CitedPresent(After(m, events, size))
    decreases |events|
  {
    if events != [] { PresentAtTheEnd(Next(m, events[0], size), events[1..], size); }
  }

  /** An id cited at any point of a run from a new goal is in the document it ends with, if its repairs started from readable ones. */
  lemma {:induction false} CitedItemsSurvive(before: seq<Event>, after: seq<Event>, size: Document -> nat, id: string)
    requires RepairsReadable(NEW, before + after, size)
    requires id in After(NEW, before, size).cited
    ensures var m := After(NEW, before + after, size);
      id in m.cited && (m.document.Some? ==> id in Ids(m.document.value.items))
  {
    AfterConcat(NEW, before, after, size);
    EveryRunIsSound(NEW, before, size);
    EveryRunIsSound(After(NEW, before, size), after, size);
    ReadableRepairsRemember(NEW, before + after, size);
    CitedItemsSurviveExactly(NEW, before + after, size);
    PresentAtTheEnd(NEW, before + after, size);
  }

  lemma {:induction false} AfterConcat(m: Memory, before: seq<Event>, after: seq<Event>, size: Document -> nat)
    ensures After(m, before + after, size) == After(After(m, before, size), after, size)
    decreases |before|
  {
    if before == [] {
      assert before + after == after;
    } else {
      TailOfConcat(before, after);
      AfterConcat(Next(m, before[0], size), before[1..], after, size);
    }
  }

  function Small(doc: Document): nat { 0 }

  lemma OneItemMerges(upsert: Upsert)
    requires upsert == Upsert("a", Decision, "t", "", "", "", "")
    ensures Merge([], [upsert], [], "run") == Ok([ItemOf(upsert, "run")])
    ensures Ids([ItemOf(upsert, "run")]) == ["a"]
  {
    TrimmedIsFixed("a");
    TrimmedIsFixed("t");
    TrimmedIsFixed("");
    var item := ItemOf(upsert, "run");
    assert FirstUpsertError([upsert]).None? by { assert [upsert][1..] == []; }
    assert ItemsOf([upsert], "run") == [item] && [item][1..] == [];
    assert LastWins([]) == [] && Put([], item) == [item];
    assert PutAll([], [item]) == PutAll([item], []);
  }

  lemma {:induction false} OneFeedbackPasses(feedback: Feedback, entries: map<int, Entry>)
    requires feedback == Feedback(1, Incorporated, ["a"], 0) && IsOrdinary(entries, 1)
    ensures FirstFeedbackError([feedback], ["a"]).None? && NotOrdinary([feedback], entries).None? && "a" in Cites([feedback])
  {
    assert ["a"][1..] == [];
    assert [feedback][1..] == [];
    assert FeedbackError(feedback, ["a"]).None?;
  }

  lemma OneCommitCites(upsert: Upsert, feedback: Feedback, patch: Patch, entries: map<int, Entry>)
    requires upsert == Upsert("a", Decision, "t", "", "", "", "") && feedback == Feedback(1, Incorporated, ["a"], 0)
    requires patch == Patch(0, Some("s"), None, [upsert], [], [feedback], "o") && IsOrdinary(entries, 1)
    ensures var c := Committed(NEW.(entries := entries), patch, Some("run"), Small);
      c.Ok? && "a" in c.value.cited
  {
    TrimmedIsFixed("s");
    TrimmedIsFixed("o");
    OneItemMerges(upsert);
    OneFeedbackPasses(feedback, entries);
    assert PatchDocument(NEW.document.value, patch, "run", Small).Ok?;
  }

  lemma NothingIsRemembered(evidence: Evidence, id: string)
    requires evidence == Evidence([], [], [], "")
    ensures Rebuilt(None, evidence, Small).Some? && id !in Ids(Rebuilt(None, evidence, Small).value.items)
  {
    assert Memorable(evidence) == [];
    RebuildRemembersExactly(evidence, Small, id);
  }

  /** Whatever the memory, a repair of its damaged document from no evidence keeps what was cited out of it. */
  lemma DamageAndRepairForget(m: Memory, id: string)
    ensures var t := Next(Next(m, Corrupt, Small), Repair(Evidence([], [], [], ""), true), Small);
      t.cited == m.cited && t.document.Some? && id !in Ids(t.document.value.items)
  {
    NothingIsRemembered(Evidence([], [], [], ""), id);
  }

  /** One such run: a note is incorporated into an item, the document is damaged, and the repair forgets the item. */
  lemma AnUnreadableRepairForgets() returns (events: seq<Event>)
    ensures var m := After(NEW, events, Small);
      "a" in m.cited && m.document.Some? && "a" !in Ids(m.document.value.items)
  {
    var upsert, feedback := Upsert("a", Decision, "t", "", "", "", ""), Feedback(1, Incorporated, ["a"], 0);
    var patch := Patch(0, Some("s"), None, [upsert], [], [feedback], "o");
    var e1, e2, e4 := NewEntry(1, OrdinaryFeedback), Commit(patch, Some("run")), Repair(Evidence([], [], [], ""), true);
    var m1 := Next(NEW, e1, Small);
    OneCommitCites(upsert, feedback, patch, m1.entries);
    DamageAndRepairForget(Next(m1, e2, Small), "a");
    events := [e1] + ([e2] + ([Corrupt] + [e4]));
    FourSteps(NEW, e1, e2, Corrupt, e4);
  }

  lemma {:induction false} FourSteps(m: Memory, e1: Event, e2: Event, e3: Event, e4: Event)
    ensures After(m, [e1] + ([e2] + ([e3] + [e4])), Small) == Next(Next(Next(Next(m, e1, Small), e2, Small), e3, Small), e4, Small)
  {
    var m3 := After(After(After(m, [e1], Small), [e2], Small), [e3], Small);
    AfterConcat(m, [e1], [e2] + ([e3] + [e4]), Small);
    AfterConcat(After(m, [e1], Small), [e2], [e3] + [e4], Small);
    AfterConcat(After(After(m, [e1], Small), [e2], Small), [e3], [e4], Small);
    OneStep(m, e1);
    OneStep(After(m, [e1], Small), e2);
    OneStep(After(After(m, [e1], Small), [e2], Small), e3);
    OneStep(m3, e4);
  }

  lemma {:induction false} OneStep(m: Memory, e: Event)
    ensures After(m, [e], Small) == Next(m, e, Small)
  {
    assert [e][1..] == [];
  }
}
