/**
 * A stored goal as the object its operations update. Each operation takes its
 * action, keeps the records and, where its action does, the clock, only adds to
 * the timeline, and changes nothing when it is refused.
 */
module GoalRecord {
  import opened Seqs
  import opened Text
  import opened GoalMetrics
  import opened GoalLifecycle

  class StoredGoal {
    var brief: Brief
    var metrics: seq<Metric>
    var reviewEvery: string
    var status: Status
    var nextReview: Option<int>
    var closingReport: string
    var nextStep: string
    var nextWhy: string
    var memoryBlocked: bool
    var timeline: seq<Entry>

    ghost function State(): Goal
      reads this
    {
      Goal(brief, metrics, reviewEvery, status, nextReview, closingReport, nextStep, nextWhy, memoryBlocked, timeline)
    }

    /** The report fits the status, and the timeline shows both. */
    ghost predicate Valid()
      reads this
    {
      Recorded(State())
    }

    constructor (brief: Brief, metrics: seq<Metric>, reviewEvery: string, nextReview: Option<int>)
      ensures State() == Goal(brief, metrics, reviewEvery, Active, nextReview, "", "", "", false, [Created])
    {
      this.brief, this.metrics, this.reviewEvery, this.nextReview := brief, metrics, reviewEvery, nextReview;
      status, closingReport, nextStep, nextWhy, memoryBlocked := Active, "", "", "", false;
      timeline := [Created];
    }

    method AppendEvent(e: Entry)
      modifies this`timeline
      ensures timeline == old(timeline) + [e]
    {
      timeline := timeline + [e];
    }

    method SetNextStep(step: string, why: string)
      modifies this`nextStep, this`nextWhy
      ensures nextStep == step && nextWhy == why
    {
      nextStep, nextWhy := step, why;
    }

    /** A status change goes on the timeline, or is refused and leaves everything as it was. */
    method TransitionGoal(w: World, after: Status, note: string, now: int) returns (refused: Option<GoalError>)
      requires Valid()
      modifies this
      ensures Valid() && Keeps(w, old(State()), State())
      ensures refused.None? <==>
        (old(status) == after
         || ((old(status), after) in MOVES && !(old(status) == Paused && after == Active && old(memoryBlocked))))
      ensures refused.None? && old(status) != after ==> State() == Changed(w, old(State()), after, note, now)
      ensures refused.Some? || old(status) == after ==> State() == old(State())
    {
      ActKeeps(w, State(), DoTransition(after, note, now));
      if status != after { TransitionFollows(w, State(), after, note, now); }
      refused := ChangeStatus(w, after, note, now);
    }

    method ChangeStatus(w: World, after: Status, note: string, now: int) returns (refused: Option<GoalError>)
      modifies this
      ensures var r := old(Transition(w, State(), after, note, now));
        && refused == (if r.Ok? then None else Some(r.error))
        && State() == OkOr(r, old(State()))
    {
      var before := status;
      if before == after { return None; }
      if !Allowed(before, after) { return Some(NotAllowed(before, after)); }
      if before == Paused && after == Active && memoryBlocked { return Some(RepairMemoryFirst); }
      EnterStatus(w, after, now);
      AppendEvent(StatusChange(before, after, note));
      refused := None;
    }

    method EnterStatus(w: World, after: Status, now: int)
      modifies this`status, this`nextReview, this`closingReport, this`nextStep, this`nextWhy
      ensures State() == Entered(w, old(State()), after, now)
    {
      status := after;
      if after == Active {
        var cadence := Cadence(w, reviewEvery);
        var every := 0;
        if cadence.Some? { every := cadence.value; }
        nextReview := NextReviewFrom(now, every);
        closingReport := "";
      } else {
        nextReview := None;
      }
      if after == Done || after == Abandoned { SetNextStep("", ""); }
    }

    /** Only an active goal can be proposed complete; it then rests in review with the report, and nothing is left to do. */
    method ProposeGoalCompletion(ghost w: World, report: string, committed: bool) returns (refused: Option<GoalError>)
      requires Valid()
      modifies this
      ensures Valid() && Keeps(w, old(State()), State())
      ensures refused.None? <==> old(status) == Active && !Blank(report) && committed
      ensures refused.None? ==>
        State() == old(State()).(status := Review, closingReport := report, nextReview := None, nextStep := "", nextWhy := "",
                                 timeline := old(timeline) + [CompletionProposed(report)])
      ensures refused.Some? ==> State() == old(State())
    {
      ActKeeps(w, State(), DoPropose(report, committed));
      refused := EnterReview(report, committed);
    }

    method EnterReview(report: string, committed: bool) returns (refused: Option<GoalError>)
      modifies this
      ensures var r := old(Propose(State(), report, committed));
        && refused == (if r.Ok? then None else Some(r.error))
        && State() == OkOr(r, old(State()))
    {
      if status != Active { return Some(NotActive); }
      if Blank(report) { return Some(ReportRequired); }
      if !committed { return Some(CommitMemoryFirst); }
      status, closingReport, nextReview := Review, report, None;
      SetNextStep("", "");
      AppendEvent(CompletionProposed(report));
      refused := None;
    }

    /** Whatever the status was, the goal rests; what it had to show stays. */
    method BlockGoalMemory(ghost w: World, reason: string)
      requires Valid()
      modifies this
      ensures Valid() && Keeps(w, old(State()), State())
      ensures State() == old(State()).(memoryBlocked := true, status := Paused, nextReview := None,
                                       timeline := old(timeline) + [MemoryBlocked(reason)])
    {
      ActKeeps(w, State(), DoBlock(reason));
      Rest(reason);
    }

    method Rest(reason: string)
      modifies this
      ensures State() == Block(old(State()), reason)
    {
      memoryBlocked, status, nextReview := true, Paused, None;
      AppendEvent(MemoryBlocked(reason));
    }

    /** A clock that was right stays right exactly when the goal is active or has no cadence. */
    method AdvanceReviewClock(w: World, now: int)
      requires Valid()
      modifies this`nextReview
      ensures Valid() && State() == AdvanceClock(w, old(State()), now)
      ensures old(ClockOk(w, State())) ==> (ClockOk(w, State()) <==> status == Active || Blank(reviewEvery))
      ensures nextReview == Due(w, reviewEvery, now)
    {
      CadencesAreDue(w, reviewEvery, now);
      var cadence := Cadence(w, reviewEvery);
      if cadence.None? || cadence.value <= 0 {
        nextReview := None;
      } else {
        nextReview := NextReviewFrom(now, cadence.value);
      }
    }

    /**
     * A progress entry. When metrics moved, the last timeline entry's deltas lead
     * from the old list to the new one and back; when it is refused, no metric
     * and no status has moved.
     */
    method RecordGoalProgress(ghost w: World, kind: ProgressKind, body: string, moves: seq<Move>, step: string, why: string)
      returns (refused: Option<GoalError>)
      requires Valid()
      modifies this
      ensures Valid() && Progressed(w, old(State()), State(), moves, refused)
      ensures Blank(body) && moves == [] ==> refused == Some(EmptyProgress) && State() == old(State())
      ensures !(Blank(body) && moves == []) ==> NoteFollows(old(State()), State(), kind, body, step, why)
      ensures refused.None? ==> MetricsFollow(old(metrics), moves, metrics)
    {
      RecordFollows(State(), kind, body, moves, step, why);
      RecordProgresses(w, State(), kind, body, moves, step, why);
      refused := AppendProgress(kind, body, moves, step, why);
    }

    method AppendProgress(kind: ProgressKind, body: string, moves: seq<Move>, step: string, why: string)
      returns (refused: Option<GoalError>)
      modifies this
      ensures State() == Record(old(State()), kind, body, moves, step, why).0
      ensures refused == Record(old(State()), kind, body, moves, step, why).1
    {
      if Blank(body) && moves == [] { return Some(EmptyProgress); }
      NoteProgress(kind, body, step, why);
      refused := None;
      if moves != [] { refused := MoveAll(moves); }
    }

    method NoteProgress(kind: ProgressKind, body: string, step: string, why: string)
      modifies this`timeline, this`nextStep, this`nextWhy
      ensures State() == Restep(Note(old(State()), kind, body, step, why), step, why)
    {
      if !Blank(body) { AppendEvent(Noted(kind, body, Trim(step), Trim(why))); }
      if !Blank(step) || !Blank(why) { SetNextStep(Trim(step), Trim(why)); }
    }

    method MoveAll(moves: seq<Move>) returns (refused: Option<GoalError>)
      requires moves != []
      modifies this`metrics, this`timeline
      ensures (State(), refused) == MoveMetrics(old(State()), moves)
    {
      var moved := ApplyMoves(metrics, moves);
      if moved.Err? { return Some(NoSuchMetric(moved.error)); }
      metrics := moved.value.metrics;
      AppendEvent(MetricsMoved(moved.value.deltas));
      refused := None;
    }

    /** An update never touches the status, the report or the timeline, and an agent's never the title, lead or project. */
    method UpdateGoal(w: World, p: Patch, now: int) returns (refused: Option<GoalError>)
      requires Valid()
      modifies this`brief, this`metrics, this`reviewEvery, this`nextReview
      ensures Valid() && Keeps(w, old(State()), State())
      ensures p.fromAgent ==> brief.title == old(brief).title && brief.lead == old(brief).lead && brief.project == old(brief).project
      ensures refused.None? <==> PatchIsProper(w, old(brief), p)
      ensures refused.None? ==> BriefFollows(old(brief), p, brief) && metrics == Given(p.metrics, old(metrics))
      ensures refused.None? ==> reviewEvery == GivenTrimmed(p.reviewEvery, old(reviewEvery))
      ensures refused.None? ==>
        nextReview == if p.reviewEvery.Some? && status == Active then Due(w, p.reviewEvery.value, now) else old(nextReview)
      ensures refused.Some? ==> State() == old(State())
    {
      ActKeeps(w, State(), DoUpdate(p, now));
      UpdateFollows(w, State(), p, now);
      if Update(w, State(), p, now).Ok? { UpdateChangesOnlyItsFields(w, State(), p, now); }
      refused := ApplyPatch(w, p, now);
    }

    method ApplyPatch(w: World, p: Patch, now: int) returns (refused: Option<GoalError>)
      modifies this`brief, this`metrics, this`reviewEvery, this`nextReview
      ensures var r := old(Update(w, State(), p, now));
        && refused == (if r.Ok? then None else Some(r.error))
        && State() == OkOr(r, old(State()))
    {
      var bad := PatchError(w, brief, p);
      if bad.Some? { return bad; }
      WritePatch(w, p, now);
      refused := None;
    }

    method WritePatch(w: World, p: Patch, now: int)
      requires p.reviewEvery.Some? ==> Cadence(w, p.reviewEvery.value).Some?
      modifies this`brief, this`metrics, this`reviewEvery, this`nextReview
      ensures State() == PatchedGoal(w, old(State()), p, now)
    {
      brief := PatchedBrief(brief, p);
      if p.metrics.Some? { metrics := p.metrics.value; }
      if p.reviewEvery.Some? {
        var every := Cadence(w, p.reviewEvery.value).value;
        reviewEvery := Trim(p.reviewEvery.value);
        if status == Active { nextReview := NextReviewFrom(now, every); }
      }
    }
  }

  /** A goal comes into being active, with its records and its clock right, or not at all. */
  method CreateGoal(w: World, brief: Brief, metrics: seq<Metric>, reviewEvery: string, now: int)
    returns (goal: StoredGoal?, refused: Option<GoalError>)
    ensures var r := Create(w, brief, metrics, reviewEvery, now);
      && refused == (if r.Ok? then None else Some(r.error))
      && (r.Ok? <==> goal != null)
      && (goal != null ==> fresh(goal) && goal.State() == r.value)
    ensures goal != null ==> goal.Valid() && ClockOk(w, goal.State())
    ensures goal != null <==> BriefIsProper(w, brief) && !Blank(brief.lead) && Readable(w, reviewEvery)
    ensures goal != null ==>
      goal.State() == Goal(brief, metrics, reviewEvery, Active, Due(w, reviewEvery, now), "", "", "", false, [Created])
  {
    CreateFollows(w, brief, metrics, reviewEvery, now);
    if Create(w, brief, metrics, reviewEvery, now).Ok? { CreateRecords(w, brief, metrics, reviewEvery, now); }
    goal := null;
    if Blank(brief.title) { return null, Some(TitleRequired); }
    if Blank(brief.lead) || brief.lead !in w.agents { return null, Some(UnknownLead); }
    if !w.targetOk(brief.lead, TrimTarget(brief.target)) { return null, Some(BadTarget); }
    var every := Cadence(w, reviewEvery);
    if every.None? { return null, Some(BadCadence); }
    if brief.project != "" && brief.project !in w.projects { return null, Some(UnknownProject); }
    goal := new StoredGoal(brief, metrics, reviewEvery, NextReviewFrom(now, every.value));
    refused := None;
  }
}
