/**
 * Operations on a goal that overlap. Each of them loads the goal, works on its
 * copy, and stores the whole row; nothing stops another one in between. The
 * timeline and the stated next step are kept apart from the row, and only added
 * to or overwritten.
 */
module GoalRaces {
  import opened Seqs
  import opened Text
  import opened GoalMetrics
  import opened GoalLifecycle

  /** The operations that store a whole row; BindLead gives the goal its lead conversation. */
  datatype RowWrite =
    | Patching(patch: Patch, now: int)
    | Moving(after: Status, note: string, now: int)
    | Proposing(report: string, committed: bool)
    | Choosing(target: Target)
    | BindLead(session: string)

  /** What the operation makes of the goal as it loaded it; None if it then stores nothing. */
  function Made(w: World, held: Goal, op: RowWrite): Option<Goal> {
    match op
    case Patching(patch, now) => FromResult(Update(w, held, patch, now))
    case Moving(after, note, now) => if held.status == after then None else FromResult(Transition(w, held, after, note, now))
    case Proposing(report, committed) => FromResult(Propose(held, report, committed))
    case Choosing(target) => Some(ChooseTarget(held, target))
    case BindLead(session) => Some(held.(brief := held.brief.(leadSession := session)))
  }

  function FromResult(r: Result<Goal, GoalError>): Option<Goal> {
    if r.Ok? then Some(r.value) else None
  }

  /** The entry the operation puts on the timeline, if it stores its row. */
  function Logged(held: Goal, op: RowWrite): seq<Entry> {
    match op
    case Moving(after, note, _) => [StatusChange(held.status, after, note)]
    case Proposing(report, _) => [CompletionProposed(report)]
    case Choosing(_) => [TargetChosen]
    case _ => []
  }

  predicate EndsPlans(op: RowWrite) {
    op.Proposing? || (op.Moving? && (op.after == Done || op.after == Abandoned))
  }

  /** The row as it was made from the copy, over the goal as it is now. */
  function Stored(w: World, g: Goal, held: Goal, op: RowWrite): Goal {
    match Made(w, held, op)
    case None => g
    case Some(row) =>
      g.(brief := row.brief, metrics := row.metrics, reviewEvery := row.reviewEvery, status := row.status,
         nextReview := row.nextReview, closingReport := row.closingReport,
         nextStep := if EndsPlans(op) then "" else g.nextStep,
         nextWhy := if EndsPlans(op) then "" else g.nextWhy,
         timeline := g.timeline + Logged(held, op))
  }

  /** The operation in one piece, as GoalLifecycle has it. */
  function Alone(w: World, g: Goal, op: RowWrite): Goal {
    match op
    case Patching(patch, now) => Act(w, g, DoUpdate(patch, now))
    case Moving(after, note, now) => Act(w, g, DoTransition(after, note, now))
    case Proposing(report, committed) => Act(w, g, DoPropose(report, committed))
    case Choosing(target) => Act(w, g, DoChoose(target))
    case BindLead(session) => g.(brief := g.brief.(leadSession := session))
  }

  /** If nothing came in between, storing the row is the operation. */
  lemma UndisturbedIsAlone(w: World, g: Goal, op: RowWrite)
    ensures Stored(w, g, g, op) == Alone(w, g, op)
  {
    assert g.timeline + [] == g.timeline;
  }

  // ----------------------------------------------------------- one stale write

  /**
   * The copy agrees with the goal on what the write puts back: the status, and
   * the closing report unless the operation sets that itself.
   */
  predicate Current(g: Goal, held: Goal, op: RowWrite) {
    && held.status == g.status
    && (held.closingReport == g.closingReport || op.Proposing? || (op.Moving? && op.after == Active))
  }

  lemma {:induction false} LegalEnds(timeline: seq<Entry>, e: Entry)
    requires timeline != [] && Legal(timeline + [e])
    ensures Fits(Replay(timeline), e)
  {
    assert FitsThere(timeline + [e], |timeline|);
    assert (timeline + [e])[..|timeline|] == timeline;
  }

  /** A row stored without an entry. */
  lemma SilentWrite(g: Goal, h: Goal)
    requires Recorded(g) && h.timeline == g.timeline
    requires h.status == Active ==> h.closingReport == ""
    requires h.status == Review || h.status == Done ==> !Blank(h.closingReport)
    ensures Recorded(h) <==> h.status == g.status && h.closingReport == g.closingReport
  {
  }

  /** A row stored with an entry. */
  lemma LoggedWrite(g: Goal, h: Goal, e: Entry)
    requires Recorded(g) && h.timeline == g.timeline + [e]
    requires h.status == Active ==> h.closingReport == ""
    requires h.status == Review || h.status == Done ==> !Blank(h.closingReport)
    ensures Recorded(h) <==>
      Fits(Shown(g.status, g.closingReport), e) && Read(Shown(g.status, g.closingReport), e) == Shown(h.status, h.closingReport)
  {
    ReplayNext(g.timeline, e);
    if Recorded(h) { LegalEnds(g.timeline, e); }
    if Fits(Shown(g.status, g.closingReport), e) { LegalNext(g.timeline, e); }
  }

  lemma StaleMoveKeepsExactly(w: World, g: Goal, held: Goal, after: Status, note: string, now: int)
    requires Recorded(g) && Recorded(held) && Made(w, held, Moving(after, note, now)).Some?
    ensures Recorded(Stored(w, g, held, Moving(after, note, now))) <==> Current(g, held, Moving(after, note, now))
  {
    LoggedWrite(g, Stored(w, g, held, Moving(after, note, now)), StatusChange(held.status, after, note));
  }

  lemma StaleProposalKeepsExactly(w: World, g: Goal, held: Goal, report: string, committed: bool)
    requires Recorded(g) && Made(w, held, Proposing(report, committed)).Some?
    ensures Recorded(Stored(w, g, held, Proposing(report, committed))) <==> Current(g, held, Proposing(report, committed))
  {
    LoggedWrite(g, Stored(w, g, held, Proposing(report, committed)), CompletionProposed(report));
  }

  /** A stale write keeps the records exactly when the copy is current. */
  lemma StaleWriteKeepsExactly(w: World, g: Goal, held: Goal, op: RowWrite)
    requires Recorded(g) && Recorded(held) && Made(w, held, op).Some?
    ensures Recorded(Stored(w, g, held, op)) <==> Current(g, held, op)
  {
    var h := Stored(w, g, held, op);
    match op
    case Patching(_, _) => assert h.timeline == g.timeline; SilentWrite(g, h);
    case BindLead(_) => assert h.timeline == g.timeline; SilentWrite(g, h);
    case Moving(after, note, now) => StaleMoveKeepsExactly(w, g, held, after, note, now);
    case Proposing(report, committed) => StaleProposalKeepsExactly(w, g, held, report, committed);
    case Choosing(_) => LoggedWrite(g, h, TargetChosen);
  }

  // ------------------------------------------------------------------- runs

  /** The goal, and the copies operations under way work on. */
  datatype Racing = Racing(goal: Goal, held: map<nat, Goal>)

  datatype Turn =
    | Whole(a: Action)
    | Load(who: nat)
    | Store(who: nat, op: RowWrite)

  function Take(w: World, s: Racing, t: Turn): Racing {
    match t
    case Whole(a) => s.(goal := Act(w, s.goal, a))
    case Load(who) => s.(held := s.held[who := s.goal])
    case Store(who, op) =>
      if who !in s.held then s else Racing(Stored(w, s.goal, s.held[who], op), s.held - {who})
  }

  function Finish(w: World, s: Racing, turns: seq<Turn>): Racing
    decreases |turns|
  {
    if turns == [] then s else Finish(w, Take(w, s, turns[0]), turns[1..])
  }

  /** The guard that is missing: a row may be stored only from a copy that is still current. */
  predicate InTime(w: World, s: Racing, t: Turn) {
    t.Store? && t.who in s.held && Made(w, s.held[t.who], t.op).Some? ==> Current(s.goal, s.held[t.who], t.op)
  }

  predicate AlwaysInTime(w: World, s: Racing, turns: seq<Turn>)
    decreases |turns|
  {
    turns != [] ==> InTime(w, s, turns[0]) && AlwaysInTime(w, Take(w, s, turns[0]), turns[1..])
  }

  ghost predicate AlwaysRecorded(w: World, s: Racing, turns: seq<Turn>)
    decreases |turns|
  {
    Recorded(s.goal) && (turns != [] ==> AlwaysRecorded(w, Take(w, s, turns[0]), turns[1..]))
  }

  ghost predicate AllRecorded(s: Racing) {
    Recorded(s.goal) && forall who :: who in s.held ==> Recorded(s.held[who])
  }

  lemma TurnKeepsExactly(w: World, s: Racing, t: Turn)
    requires AllRecorded(s)
    ensures Recorded(Take(w, s, t).goal) <==> InTime(w, s, t)
    ensures InTime(w, s, t) ==> AllRecorded(Take(w, s, t))
  {
    match t
    case Whole(a) => ActRecords(w, s.goal, a);
    case Load(who) =>
    case Store(who, op) =>
      if who in s.held && Made(w, s.held[who], op).Some? { StaleWriteKeepsExactly(w, s.goal, s.held[who], op); }
  }

  /**
   * However operations overlap, at every moment the timeline is a legal history
   * that shows the goal's status and report, if and only if no row is ever
   * stored from a copy whose status or report the goal has left behind.
   */
  lemma {:induction false} RecordsHoldExactly(w: World, s: Racing, turns: seq<Turn>)
    requires AllRecorded(s)
    ensures AlwaysRecorded(w, s, turns) <==> AlwaysInTime(w, s, turns)
    decreases |turns|
  {
    if turns != [] {
      var next := Take(w, s, turns[0]);
      TurnKeepsExactly(w, s, turns[0]);
      if InTime(w, s, turns[0]) {
        RecordsHoldExactly(w, next, turns[1..]);
      } else {
        assert !AlwaysRecorded(w, next, turns[1..]);
      }
    }
  }

  const NO_CHANGE: Patch := Patch(None, None, None, None, None, None, None, None, None, None, None, false)

  /** A user edits an active goal while its agent proposes it complete: the edit puts the goal back. */
  lemma {:induction false} AnEditUndoesIt(w: World, g: Goal, report: string)
    requires Recorded(g) && g.status == Active && !Blank(report) && w.targetOk(g.brief.lead, TrimTarget(g.brief.target))
    ensures var t := Finish(w, Racing(g, map[]), [Load(0), Whole(DoPropose(report, true)), Store(0, Patching(NO_CHANGE, 0))]);
      && t.goal.status == Active && t.goal.closingReport == ""
      && t.goal.timeline == g.timeline + [CompletionProposed(report)] && Replay(t.goal.timeline) == Shown(Review, report)
  {
    var turns := [Load(0), Whole(DoPropose(report, true)), Store(0, Patching(NO_CHANGE, 0))];
    var s1 := Take(w, Racing(g, map[]), turns[0]);
    var s2 := Take(w, s1, turns[1]);
    var s3 := Take(w, s2, turns[2]);
    assert turns[1..][1..] == [turns[2]] && turns[1..][1..][1..] == [];
    assert Finish(w, s3, []) == s3 && Finish(w, s2, [turns[2]]) == s3;
    assert Finish(w, s1, turns[1..]) == Finish(w, s2, turns[1..][1..]);
    ReplayNext(g.timeline, CompletionProposed(report));
    assert PatchError(w, g.brief, NO_CHANGE).None?;
    assert s3.goal.timeline == s2.goal.timeline + [] == s2.goal.timeline;
  }

  /** Such a run of a goal just created: its timeline ends with the proposal, and the goal is active. */
  lemma AProposalIsUndone()
    ensures var created := Create(SMALL_WORLD, SMALL_BRIEF, [], "", 0);
      && created.Ok?
      && var turns := [Load(0), Whole(DoPropose("r", true)), Store(0, Patching(NO_CHANGE, 0))];
      var t := Finish(SMALL_WORLD, Racing(created.value, map[]), turns).goal;
      t.status == Active && t.timeline == [Created, CompletionProposed("r")] && !Recorded(t)
  {
    TrimmedIsFixed("t");
    TrimmedIsFixed("lead");
    TrimmedIsFixed("r");
    CreateRecords(SMALL_WORLD, SMALL_BRIEF, [], "", 0);
    AnEditUndoesIt(SMALL_WORLD, Create(SMALL_WORLD, SMALL_BRIEF, [], "", 0).value, "r");
  }
}
