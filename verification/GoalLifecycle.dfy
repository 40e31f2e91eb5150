/**
 * The life of a goal: the user and the agent change its status from several
 * entry points, the scheduler winds its review clock, and every status change
 * goes on its timeline. Actions are functions from one record to the next.
 */
module GoalLifecycle {
  import opened Seqs
  import opened Text
  import opened GoalMetrics

  const REVIEW_FLOOR: int := 15 * 60

  datatype Status = Active | Review | Paused | Done | Abandoned

  datatype Target = Target(provider: string, profile: string, model: string, effort: string)

  datatype Brief = Brief(
    title: string, description: string, criteria: string, lead: string, leadSession: string, project: string, target: Target)

  datatype ProgressKind = Progress | PlanChange

  datatype Entry =
    | Created
    | StatusChange(before: Status, after: Status, note: string)
    | MemoryBlocked(reason: string)
    | CompletionProposed(report: string)
    | Noted(kind: ProgressKind, body: string, step: string, why: string)
    | MetricsMoved(deltas: seq<Delta>)
    | Feedback(body: string)
    | TargetChosen

  datatype Goal = Goal(
    brief: Brief, metrics: seq<Metric>, reviewEvery: string, status: Status, nextReview: Option<int>,
    closingReport: string, nextStep: string, nextWhy: string, memoryBlocked: bool, timeline: seq<Entry>)

  datatype GoalError =
    | TitleRequired | UnknownLead | UnknownProject | BadCadence | BadTarget | AgentsMayNot
    | NotAllowed(before: Status, after: Status) | RepairMemoryFirst | NotActive | ReportRequired | CommitMemoryFirst
    | EmptyProgress | NoSuchMetric(name: string) | EmptyFeedback | MemoryNotBlocked

  /** What an action can see of the rest of the program: agents, projects, valid targets, how durations read. */
  datatype World = World(
    agents: set<string>, projects: set<string>, targetOk: (string, Target) -> bool, duration: string -> Option<int>)

  datatype Patch = Patch(
    title: Option<string>, description: Option<string>, criteria: Option<string>, metrics: Option<seq<Metric>>,
    reviewEvery: Option<string>, lead: Option<string>, project: Option<string>, provider: Option<string>,
    profile: Option<string>, model: Option<string>, effort: Option<string>, fromAgent: bool)

  // ------------------------------------------------------------- the clock

  /** parseReviewEvery, in seconds; zero turns automatic reviews off, None refuses the text. */
  function Cadence(w: World, raw: string): (r: Option<int>)
    ensures r.Some? ==> r.value == 0 || r.value >= REVIEW_FLOOR
    ensures Blank(raw) ==> r == Some(0)
    ensures r == Some(0) ==> Blank(raw)
  {
    if Blank(raw) then Some(0)
    else
      var d := w.duration(Trim(raw));
      if d.None? || d.value < REVIEW_FLOOR then None else d
  }

  function NextReviewFrom(now: int, every: int): Option<int> {
    if every <= 0 then None else Some(now + every)
  }

  /** The clock a goal gets when it becomes active; a cadence that no longer parses counts as none. */
  function Wound(w: World, raw: string, now: int): Option<int> {
    NextReviewFrom(now, if Cadence(w, raw).Some? then Cadence(w, raw).value else 0)
  }

  // ----------------------------------------------------------- the actions

  function Create(w: World, brief: Brief, metrics: seq<Metric>, reviewEvery: string, now: int): Result<Goal, GoalError> {
    if Blank(brief.title) then Err(TitleRequired)
    else if Blank(brief.lead) || brief.lead !in w.agents then Err(UnknownLead)
    else if !w.targetOk(brief.lead, TrimTarget(brief.target)) then Err(BadTarget)
    else if Cadence(w, reviewEvery).None? then Err(BadCadence)
    else if brief.project != "" && brief.project !in w.projects then Err(UnknownProject)
    else Ok(Goal(brief, metrics, reviewEvery, Active, NextReviewFrom(now, Cadence(w, reviewEvery).value), "", "", "", false, [Created]))
  }

  function TrimTarget(t: Target): Target {
    Target(Trim(t.provider), Trim(t.profile), Trim(t.model), Trim(t.effort))
  }

  function Or<T>(o: Option<T>, otherwise: T): T {
    if o.Some? then o.value else otherwise
  }

  function TrimOr(o: Option<string>, otherwise: string): string {
    if o.Some? then Trim(o.value) else otherwise
  }

  function PatchedBrief(b: Brief, p: Patch): Brief {
    var lead := Or(p.lead, b.lead);
    Brief(TrimOr(p.title, b.title), Or(p.description, b.description), Or(p.criteria, b.criteria), lead,
          if lead != b.lead then "" else b.leadSession, Or(p.project, b.project),
          Target(TrimOr(p.provider, b.target.provider), TrimOr(p.profile, b.target.profile),
                 TrimOr(p.model, b.target.model), TrimOr(p.effort, b.target.effort)))
  }

  function PatchError(w: World, b: Brief, p: Patch): Option<GoalError> {
    if p.fromAgent && (p.title.Some? || p.lead.Some? || p.project.Some?) then Some(AgentsMayNot)
    else if p.title.Some? && Blank(p.title.value) then Some(TitleRequired)
    else if p.lead.Some? && p.lead.value !in w.agents then Some(UnknownLead)
    else if p.project.Some? && p.project.value != "" && p.project.value !in w.projects then Some(UnknownProject)
    else if p.reviewEvery.Some? && Cadence(w, p.reviewEvery.value).None? then Some(BadCadence)
    else if !w.targetOk(PatchedBrief(b, p).lead, TrimTarget(PatchedBrief(b, p).target)) then Some(BadTarget)
    else None
  }

  /** Only an active goal's clock follows a new cadence. */
  function PatchedGoal(w: World, g: Goal, p: Patch, now: int): Goal
    requires p.reviewEvery.Some? ==> Cadence(w, p.reviewEvery.value).Some?
  {
    g.(brief := PatchedBrief(g.brief, p), metrics := Or(p.metrics, g.metrics),
       reviewEvery := TrimOr(p.reviewEvery, g.reviewEvery),
       nextReview := if p.reviewEvery.Some? && g.status == Active
                     then NextReviewFrom(now, Cadence(w, p.reviewEvery.value).value) else g.nextReview)
  }

  /** UpdateGoal */
  function Update(w: World, g: Goal, p: Patch, now: int): Result<Goal, GoalError> {
    if PatchError(w, g.brief, p).Some? then Err(PatchError(w, g.brief, p).value) else Ok(PatchedGoal(w, g, p, now))
  }

  /** goalTransitionAllowed */
  predicate Allowed(before: Status, after: Status) {
    match after
    case Active => before != Active
    case Paused => before == Active || before == Review
    case Done => before == Review
    case Abandoned => before == Active || before == Paused || before == Review
    case Review => false
  }

  function Log(g: Goal, e: Entry): Goal {
    g.(timeline := g.timeline + [e])
  }

  /** A goal in a new status: only an active one has a clock, and only then is the report dropped. */
  function Entered(w: World, g: Goal, after: Status, now: int): Goal {
    var moved := if after == Active then g.(status := after, nextReview := Wound(w, g.reviewEvery, now), closingReport := "")
                 else g.(status := after, nextReview := None);
    if after == Done || after == Abandoned then moved.(nextStep := "", nextWhy := "") else moved
  }

  function Transition(w: World, g: Goal, after: Status, note: string, now: int): Result<Goal, GoalError> {
    if g.status == after then Ok(g)
    else if !Allowed(g.status, after) then Err(NotAllowed(g.status, after))
    else if g.status == Paused && after == Active && g.memoryBlocked then Err(RepairMemoryFirst)
    else Ok(Log(Entered(w, g, after, now), StatusChange(g.status, after, note)))
  }

  /** committed: the proposing run has committed the goal's memory, or no daemon asks for that. */
  function Propose(g: Goal, report: string, committed: bool): Result<Goal, GoalError> {
    if g.status != Active then Err(NotActive)
    else if Blank(report) then Err(ReportRequired)
    else if !committed then Err(CommitMemoryFirst)
    else Ok(Log(g.(status := Review, closingReport := report, nextReview := None, nextStep := "", nextWhy := ""),
                CompletionProposed(report)))
  }

  /** blockGoalMemory pauses the goal whatever its status. */
  function Block(g: Goal, reason: string): Goal {
    Log(g.(memoryBlocked := true, status := Paused, nextReview := None), MemoryBlocked(reason))
  }

  /** RepairGoalMemory, as far as the goal goes; worked tells whether the rebuilt memory was published. */
  function Repair(g: Goal, worked: bool): Result<Goal, GoalError> {
    if !g.memoryBlocked then Err(MemoryNotBlocked)
    else
      var paused := if g.status == Paused then g else Block(g, "");
      Ok(paused.(memoryBlocked := !worked))
  }

  /** AdvanceGoalReviewClock does not look at the status. */
  function AdvanceClock(w: World, g: Goal, now: int): Goal {
    g.(nextReview := Wound(w, g.reviewEvery, now))
  }

  function Note(g: Goal, kind: ProgressKind, body: string, step: string, why: string): Goal {
    if Blank(body) then g else Log(g, Noted(kind, body, Trim(step), Trim(why)))
  }

  /** An empty next step leaves the stated one alone. */
  function Restep(g: Goal, step: string, why: string): Goal {
    if Blank(step) && Blank(why) then g else g.(nextStep := Trim(step), nextWhy := Trim(why))
  }

  function MoveMetrics(g: Goal, moves: seq<Move>): (Goal, Option<GoalError>) {
    var moved := Apply(g.metrics, moves);
    if moves == [] then (g, None)
    else if moved.Err? then (g, Some(NoSuchMetric(moved.error)))
    else (Log(g.(metrics := moved.value.metrics), MetricsMoved(moved.value.deltas)), None)
  }

  /** RecordGoalProgress: what it did before it failed, if it failed, stays done. */
  function Record(g: Goal, kind: ProgressKind, body: string, moves: seq<Move>, step: string, why: string): (Goal, Option<GoalError>) {
    if Blank(body) && moves == [] then (g, Some(EmptyProgress))
    else MoveMetrics(Restep(Note(g, kind, body, step, why), step, why), moves)
  }

  function AddFeedback(g: Goal, body: string): Result<Goal, GoalError> {
    if Blank(body) then Err(EmptyFeedback) else Ok(Log(g, Feedback(Trim(body))))
  }

  function ChooseTarget(g: Goal, target: Target): Goal {
    Log(g.(brief := g.brief.(target := target)), TargetChosen)
  }

  // ------------------------------------------------------------------ runs

  /** DoMemory: a commit unblocks the memory, and damage to its stored form shows as blocked. */
  datatype Action =
    | DoUpdate(patch: Patch, now: int)
    | DoTransition(after: Status, note: string, now: int)
    | DoPropose(report: string, committed: bool)
    | DoBlock(reason: string)
    | DoRepair(worked: bool)
    | DoAdvance(now: int)
    | DoRecord(kind: ProgressKind, body: string, moves: seq<Move>, step: string, why: string)
    | DoFeedback(body: string)
    | DoChoose(target: Target)
    | DoMemory(blocked: bool)

  function OkOr(r: Result<Goal, GoalError>, g: Goal): Goal {
    if r.Ok? then r.value else g
  }

  function Act(w: World, g: Goal, a: Action): Goal {
    match a
    case DoUpdate(patch, now) => OkOr(Update(w, g, patch, now), g)
    case DoTransition(after, note, now) => OkOr(Transition(w, g, after, note, now), g)
    case DoPropose(report, committed) => OkOr(Propose(g, report, committed), g)
    case DoBlock(reason) => Block(g, reason)
    case DoRepair(worked) => OkOr(Repair(g, worked), g)
    case DoAdvance(now) => AdvanceClock(w, g, now)
    case DoRecord(kind, body, moves, step, why) => Record(g, kind, body, moves, step, why).0
    case DoFeedback(body) => OkOr(AddFeedback(g, body), g)
    case DoChoose(target) => ChooseTarget(g, target)
    case DoMemory(blocked) => g.(memoryBlocked := blocked)
  }

  function After(w: World, g: Goal, actions: seq<Action>): Goal
    decreases |actions|
  {
    if actions == [] then g else After(w, Act(w, g, actions[0]), actions[1..])
  }

  // ---------------------------------------------------- replaying a timeline

  /** What a timeline alone shows of a goal. */
  datatype Shown = Shown(status: Status, closingReport: string)

  function Read(s: Shown, e: Entry): Shown {
    match e
    case StatusChange(_, after, _) => Shown(after, if after == Active then "" else s.closingReport)
    case MemoryBlocked(_) => s.(status := Paused)
    case CompletionProposed(report) => Shown(Review, report)
    case _ => s
  }

  function Replay(timeline: seq<Entry>): Shown {
    if timeline == [] then Shown(Active, "")
    else Read(Replay(timeline[..|timeline| - 1]), timeline[|timeline| - 1])
  }

  lemma {:induction false} ReplayNext(timeline: seq<Entry>, e: Entry)
    ensures Replay(timeline + [e]) == Read(Replay(timeline), e)
  {
    assert (timeline + [e])[..|timeline|] == timeline;
  }

  /** An entry that may follow what the timeline shows so far. */
  predicate Fits(s: Shown, e: Entry) {
    match e
    case Created => false
    case StatusChange(before, after, _) => before == s.status && Allowed(before, after)
    case CompletionProposed(report) => s.status == Active && !Blank(report)
    case _ => true
  }

  predicate FitsThere(timeline: seq<Entry>, i: nat)
    requires i < |timeline|
  {
    Fits(Replay(timeline[..i]), timeline[i])
  }

  ghost predicate Legal(timeline: seq<Entry>) {
    && timeline != [] && timeline[0] == Created
    && forall i :: 1 <= i < |timeline| ==> FitsThere(timeline, i)
  }

  lemma {:induction false} LegalNext(timeline: seq<Entry>, e: Entry)
    requires Legal(timeline) && Fits(Replay(timeline), e)
    ensures Legal(timeline + [e])
  {
    var t := timeline + [e];
    forall i | 1 <= i < |t| ensures FitsThere(t, i) {
      if i < |timeline| {
        assert FitsThere(timeline, i);
        assert t[..i] == timeline[..i] && t[i] == timeline[i];
      } else {
        assert t[..i] == timeline;
      }
    }
  }

  // ------------------------------------------------------------ the records

  /** The report fits the status, and the timeline is a legal history that shows both. */
  ghost predicate Recorded(g: Goal) {
    && (g.status == Active ==> g.closingReport == "")
    && (g.status == Review || g.status == Done ==> !Blank(g.closingReport))
    && Legal(g.timeline)
    && Replay(g.timeline) == Shown(g.status, g.closingReport)
  }

  /** What every action must do: keep the records, and only add to the timeline. */
  ghost predicate Step(g: Goal, h: Goal) {
    Recorded(h) && g.timeline <= h.timeline
  }

  lemma {:induction false} LogKeeps(g: Goal, before: seq<Entry>, e: Entry)
    requires Legal(before) && g.timeline == before + [e] && Fits(Replay(before), e)
    requires Read(Replay(before), e) == Shown(g.status, g.closingReport)
    ensures Legal(g.timeline) && Replay(g.timeline) == Shown(g.status, g.closingReport)
  {
    LegalNext(before, e);
    ReplayNext(before, e);
  }

  lemma CreateRecords(w: World, brief: Brief, metrics: seq<Metric>, reviewEvery: string, now: int)
    requires Create(w, brief, metrics, reviewEvery, now).Ok?
    ensures var g := Create(w, brief, metrics, reviewEvery, now).value;
      Recorded(g) && ClockOk(w, g) && g.status == Active
  {
    assert [Created][..0] == [];
  }

  lemma EnteredIsRead(w: World, g: Goal, after: Status, note: string, now: int)
    requires Allowed(g.status, after)
    ensures var h, e := Entered(w, g, after, now), StatusChange(g.status, after, note);
      && h.timeline == g.timeline && h.status == after
      && h.closingReport == (if after == Active then "" else g.closingReport)
      && Fits(Shown(g.status, g.closingReport), e)
      && Read(Shown(g.status, g.closingReport), e) == Shown(h.status, h.closingReport)
  {
  }

  lemma TransitionRecords(w: World, g: Goal, after: Status, note: string, now: int)
    requires Recorded(g) && Transition(w, g, after, note, now).Ok?
    ensures Step(g, Transition(w, g, after, note, now).value)
  {
    if g.status != after {
      EnteredIsRead(w, g, after, note, now);
      LogKeeps(Transition(w, g, after, note, now).value, g.timeline, StatusChange(g.status, after, note));
    }
  }

  lemma ProposeRecords(g: Goal, report: string, committed: bool)
    requires Recorded(g) && Propose(g, report, committed).Ok?
    ensures Step(g, Propose(g, report, committed).value)
  {
    LogKeeps(Propose(g, report, committed).value, g.timeline, CompletionProposed(report));
  }

  lemma BlockRecords(g: Goal, reason: string)
    requires Recorded(g)
    ensures Step(g, Block(g, reason))
  {
    LogKeeps(Block(g, reason), g.timeline, MemoryBlocked(reason));
  }

  lemma RepairRecords(g: Goal, worked: bool)
    requires Recorded(g) && Repair(g, worked).Ok?
    ensures Step(g, Repair(g, worked).value)
  {
    BlockRecords(g, "");
  }

  lemma PlainEntryRecords(g: Goal, h: Goal, e: Entry)
    requires Recorded(g) && (e.Noted? || e.MetricsMoved? || e.Feedback? || e.TargetChosen?)
    requires h.timeline == g.timeline + [e] && h.status == g.status && h.closingReport == g.closingReport
    ensures Step(g, h)
  {
    LogKeeps(h, g.timeline, e);
  }

  lemma NoteRecords(g: Goal, kind: ProgressKind, body: string, step: string, why: string)
    requires Recorded(g)
    ensures Step(g, Note(g, kind, body, step, why))
  {
    if !Blank(body) { PlainEntryRecords(g, Note(g, kind, body, step, why), Noted(kind, body, Trim(step), Trim(why))); }
  }

  lemma MoveMetricsRecords(g: Goal, moves: seq<Move>)
    requires Recorded(g)
    ensures Step(g, MoveMetrics(g, moves).0)
  {
    var moved := Apply(g.metrics, moves);
    if moves != [] && moved.Ok? { PlainEntryRecords(g, MoveMetrics(g, moves).0, MetricsMoved(moved.value.deltas)); }
  }

  lemma RestepRecords(g: Goal, step: string, why: string)
    requires Recorded(g)
    ensures Recorded(Restep(g, step, why)) && Restep(g, step, why).timeline == g.timeline
  {
  }

  lemma RecordRecords(g: Goal, kind: ProgressKind, body: string, moves: seq<Move>, step: string, why: string)
    requires Recorded(g)
    ensures Step(g, Record(g, kind, body, moves, step, why).0)
  {
    var noted := Note(g, kind, body, step, why);
    NoteRecords(g, kind, body, step, why);
    RestepRecords(noted, step, why);
    MoveMetricsRecords(Restep(noted, step, why), moves);
  }

  /** Every action, on a goal in any state: nothing is assumed of the clock. */
  lemma ActRecords(w: World, g: Goal, a: Action)
    requires Recorded(g)
    ensures Step(g, Act(w, g, a))
  {
    match a
    case DoUpdate(patch, now) =>
    case DoTransition(after, note, now) =>
      if Transition(w, g, after, note, now).Ok? { TransitionRecords(w, g, after, note, now); }
    case DoPropose(report, committed) => if Propose(g, report, committed).Ok? { ProposeRecords(g, report, committed); }
    case DoBlock(reason) => BlockRecords(g, reason);
    case DoRepair(worked) => if Repair(g, worked).Ok? { RepairRecords(g, worked); }
    case DoAdvance(now) =>
    case DoRecord(kind, body, moves, step, why) => RecordRecords(g, kind, body, moves, step, why);
    case DoFeedback(body) => if !Blank(body) { PlainEntryRecords(g, Act(w, g, a), Feedback(Trim(body))); }
    case DoChoose(target) => PlainEntryRecords(g, Act(w, g, a), TargetChosen);
    case DoMemory(blocked) =>
  }

  /**
   * In every run: an active goal has no closing report, one in review or done
   * has a real one; the timeline is a legal history that only grows, and
   * replaying it from `created` gives the goal's status and closing report.
   */
  lemma {:induction false} EveryRunRecords(w: World, g: Goal, actions: seq<Action>)
    requires Recorded(g)
    ensures Step(g, After(w, g, actions))
    decreases |actions|
  {
    if actions != [] {
      ActRecords(w, g, actions[0]);
      EveryRunRecords(w, Act(w, g, actions[0]), actions[1..]);
    }
  }

  // -------------------------------------------------------------- the clock

  /** A goal has a next review exactly while it is active and has a cadence. */
  predicate ClockOk(w: World, g: Goal) {
    Cadence(w, g.reviewEvery).Some? && (g.nextReview.Some? <==> g.status == Active && !Blank(g.reviewEvery))
  }

  /** An action that does not wind the clock of a goal at rest. */
  predicate Winds(g: Goal, a: Action) {
    a.DoAdvance? ==> g.status == Active || Blank(g.reviewEvery)
  }

  lemma TrimIsIdempotent(s: string)
    ensures Trim(Trim(s)) == Trim(s)
  {
    TrimmedIsFixed(Trim(s));
  }

  /** Advancing the clock keeps it right exactly when the goal is active or has no cadence: the source does not look at the status. */
  lemma AdvanceClockExactly(w: World, g: Goal, now: int)
    requires ClockOk(w, g)
    ensures ClockOk(w, AdvanceClock(w, g, now)) <==> Winds(g, DoAdvance(now))
  {
  }

  lemma UpdateKeepsClock(w: World, g: Goal, p: Patch, now: int)
    requires ClockOk(w, g)
    ensures ClockOk(w, OkOr(Update(w, g, p, now), g))
  {
    if p.reviewEvery.Some? { TrimIsIdempotent(p.reviewEvery.value); }
  }

  lemma RecordKeepsClock(w: World, g: Goal, kind: ProgressKind, body: string, moves: seq<Move>, step: string, why: string)
    requires ClockOk(w, g)
    ensures ClockOk(w, Record(g, kind, body, moves, step, why).0)
  {
    var noted := Note(g, kind, body, step, why);
    assert ClockOk(w, noted) && ClockOk(w, Restep(noted, step, why));
  }

  lemma TransitionKeepsClock(w: World, g: Goal, after: Status, note: string, now: int)
    requires ClockOk(w, g)
    ensures ClockOk(w, OkOr(Transition(w, g, after, note, now), g))
  {
    if g.status != after && Allowed(g.status, after) {
      assert Wound(w, g.reviewEvery, now).Some? <==> !Blank(g.reviewEvery);
      assert ClockOk(w, Entered(w, g, after, now));
    }
  }

  lemma ProposeKeepsClock(w: World, g: Goal, report: string, committed: bool)
    requires ClockOk(w, g)
    ensures ClockOk(w, OkOr(Propose(g, report, committed), g))
  {
  }

  lemma BlockKeepsClock(w: World, g: Goal, reason: string, worked: bool)
    requires ClockOk(w, g)
    ensures ClockOk(w, Block(g, reason)) && ClockOk(w, OkOr(Repair(g, worked), g))
  {
  }

  lemma ActKeepsClockExactly(w: World, g: Goal, a: Action)
    requires ClockOk(w, g)
    ensures ClockOk(w, Act(w, g, a)) <==> Winds(g, a)
  {
    match a
    case DoUpdate(patch, now) => UpdateKeepsClock(w, g, patch, now);
    case DoAdvance(now) => AdvanceClockExactly(w, g, now);
    case DoRecord(kind, body, moves, step, why) => RecordKeepsClock(w, g, kind, body, moves, step, why);
    case DoTransition(after, note, now) => TransitionKeepsClock(w, g, after, note, now);
    case DoPropose(report, committed) => ProposeKeepsClock(w, g, report, committed);
    case DoBlock(reason) => BlockKeepsClock(w, g, reason, false);
    case DoRepair(worked) => BlockKeepsClock(w, g, "", worked);
    case DoFeedback(body) =>
    case DoChoose(target) =>
    case DoMemory(blocked) =>
  }

  /** The clock is right after each action of a run. */
  predicate ClockAlwaysOk(w: World, g: Goal, actions: seq<Action>)
    decreases |actions|
  {
    ClockOk(w, g) && (actions != [] ==> ClockAlwaysOk(w, Act(w, g, actions[0]), actions[1..]))
  }

  /** No action of the run winds the clock of a goal at rest. */
  predicate AlwaysWinds(w: World, g: Goal, actions: seq<Action>)
    decreases |actions|
  {
    actions != [] ==> Winds(g, actions[0]) && AlwaysWinds(w, Act(w, g, actions[0]), actions[1..])
  }

  /**
   * Throughout a run a goal has a next review exactly while it is active with a
   * cadence, if and only if the clock is only ever advanced on a goal that is
   * active, or that has no cadence.
   */
  lemma {:induction false} ClockHoldsExactly(w: World, g: Goal, actions: seq<Action>)
    requires ClockOk(w, g)
    ensures ClockAlwaysOk(w, g, actions) <==> AlwaysWinds(w, g, actions)
    decreases |actions|
  {
    if actions != [] {
      var next := Act(w, g, actions[0]);
      ActKeepsClockExactly(w, g, actions[0]);
      if Winds(g, actions[0]) {
        ClockHoldsExactly(w, next, actions[1..]);
      } else {
        assert !ClockAlwaysOk(w, next, actions[1..]);
      }
    }
  }

  predicate AnyTarget(lead: string, target: Target) { true }

  function AnHour(text: string): Option<int> { Some(3600) }

  const SMALL_WORLD: World := World({"lead"}, {}, AnyTarget, AnHour)
  const SMALL_BRIEF: Brief := Brief("t", "", "", "lead", "", "", Target("", "", "", ""))

  lemma PausedThenAdvanced(w: World, g: Goal, now: int)
    requires ClockOk(w, g) && g.status == Active && !Blank(g.reviewEvery)
    ensures var p := Act(w, g, DoTransition(Paused, "", now));
      p.status == Paused && Act(w, p, DoAdvance(now)).status == Paused && Act(w, p, DoAdvance(now)).nextReview.Some?
  {
    TransitionKeepsClock(w, g, Paused, "", now);
    ActKeepsClockExactly(w, Act(w, g, DoTransition(Paused, "", now)), DoAdvance(now));
  }

  /** Such a run: the goal is paused while its review is under way, and the scheduler then advances its clock. */
  lemma AStrayClock()
    ensures var created := Create(SMALL_WORLD, SMALL_BRIEF, [], "1h", 0);
      && created.Ok?
      && var g := After(SMALL_WORLD, created.value, [DoTransition(Paused, "", 5), DoAdvance(5)]);
      g.status == Paused && g.nextReview.Some?
  {
    TrimmedIsFixed("t");
    TrimmedIsFixed("lead");
    TrimmedIsFixed("1h");
    var g := Create(SMALL_WORLD, SMALL_BRIEF, [], "1h", 0).value;
    PausedThenAdvanced(SMALL_WORLD, g, 5);
    TwoActions(SMALL_WORLD, g, DoTransition(Paused, "", 5), DoAdvance(5));
  }

  lemma {:induction false} TwoActions(w: World, g: Goal, a: Action, b: Action)
    ensures After(w, g, [a, b]) == Act(w, Act(w, g, a), b)
  {
    var h := Act(w, g, a);
    assert [a, b][1..] == [b] && [b][1..] == [];
    assert After(w, g, [a, b]) == After(w, h, [b]);
    assert After(w, Act(w, h, b), []) == Act(w, h, b);
  }

  // ----------------------------------------------------- what an action changes

  /** What an operation owes its callers whatever else it does. */
  ghost predicate Keeps(w: World, g: Goal, h: Goal) {
    Step(g, h) && (ClockOk(w, g) ==> ClockOk(w, h))
  }

  lemma ActKeeps(w: World, g: Goal, a: Action)
    requires Recorded(g)
    ensures Winds(g, a) ==> Keeps(w, g, Act(w, g, a))
  {
    ActRecords(w, g, a);
    if ClockOk(w, g) { ActKeepsClockExactly(w, g, a); }
  }

  /** The deltas lead from the old list to the new one, and back. */
  predicate Leads(e: Entry, before: seq<Metric>, after: seq<Metric>) {
    e.MetricsMoved? && Forward(before, e.deltas) == Some(after) && Backward(after, e.deltas) == Some(before)
  }

  /**
   * What a progress entry does to the metrics: it moves them all and logs how as
   * the timeline's last entry, or, if a name is unknown, moves none.
   */
  predicate MovedOrRefused(g: Goal, h: Goal, moves: seq<Move>, refused: Option<GoalError>) {
    && h.status == g.status && h.closingReport == g.closingReport
    && (refused.Some? ==> h.metrics == g.metrics)
    && (moves != [] ==> (refused.None? <==> forall i :: 0 <= i < |moves| ==> moves[i].name in Names(g.metrics)))
    && (refused.None? && moves != [] ==> h.timeline != [] && Leads(h.timeline[|h.timeline| - 1], g.metrics, h.metrics))
  }

  lemma MetricsMove(g: Goal, moves: seq<Move>)
    ensures MovedOrRefused(g, MoveMetrics(g, moves).0, moves, MoveMetrics(g, moves).1)
  {
    UnknownNamesAreRefused(g.metrics, moves);
    if Apply(g.metrics, moves).Ok? { DeltasAreExact(g.metrics, moves); }
  }

  /** One progress entry, all its promises together. */
  ghost predicate Progressed(w: World, g: Goal, h: Goal, moves: seq<Move>, refused: Option<GoalError>) {
    Keeps(w, g, h) && MovedOrRefused(g, h, moves, refused)
  }

  lemma RecordProgresses(w: World, g: Goal, kind: ProgressKind, body: string, moves: seq<Move>, step: string, why: string)
    requires Recorded(g)
    ensures var r := Record(g, kind, body, moves, step, why);
      Progressed(w, g, r.0, moves, r.1)
  {
    RecordRecords(g, kind, body, moves, step, why);
    if ClockOk(w, g) { RecordKeepsClock(w, g, kind, body, moves, step, why); }
    RecordMoves(g, kind, body, moves, step, why);
  }

  lemma RecordMoves(g: Goal, kind: ProgressKind, body: string, moves: seq<Move>, step: string, why: string)
    ensures MovedOrRefused(g, Record(g, kind, body, moves, step, why).0, moves, Record(g, kind, body, moves, step, why).1)
  {
    var h := Restep(Note(g, kind, body, step, why), step, why);
    assert h.metrics == g.metrics && h.status == g.status && h.closingReport == g.closingReport;
    MetricsMove(h, moves);
  }

  /**
   * An update changes the fields its patch names and no others; an agent's patch
   * never moves the title, the lead or the project, and only a change of lead
   * gives up the lead's session.
   */
  lemma UpdateChangesOnlyItsFields(w: World, g: Goal, p: Patch, now: int)
    requires Update(w, g, p, now).Ok?
    ensures var h := Update(w, g, p, now).value;
      var a, b := g.brief, h.brief;
      && h.status == g.status && h.closingReport == g.closingReport && h.timeline == g.timeline
      && h.nextStep == g.nextStep && h.nextWhy == g.nextWhy && h.memoryBlocked == g.memoryBlocked
      && (p.fromAgent ==> b.title == a.title && b.lead == a.lead && b.leadSession == a.leadSession && b.project == a.project)
      && (p.title.None? ==> b.title == a.title) && (p.title.Some? ==> !Blank(b.title))
      && (p.description.None? ==> b.description == a.description) && (p.criteria.None? ==> b.criteria == a.criteria)
      && (b.lead == a.lead ==> b.leadSession == a.leadSession) && (b.lead != a.lead ==> b.leadSession == "" && b.lead in w.agents)
      && (b.project != a.project ==> b.project == "" || b.project in w.projects)
      && (p.metrics.None? ==> h.metrics == g.metrics)
      && (p.reviewEvery.None? ==> h.reviewEvery == g.reviewEvery && h.nextReview == g.nextReview)
  {
    if p.title.Some? { TrimIsIdempotent(p.title.value); }
  }

  /** A progress entry that fails on an unknown metric has moved no metric, but has already noted its text. */
  lemma FailedProgressMovesNothing(g: Goal, kind: ProgressKind, body: string, moves: seq<Move>, step: string, why: string)
    requires Record(g, kind, body, moves, step, why).1.Some?
    ensures var r := Record(g, kind, body, moves, step, why);
      && r.0.metrics == g.metrics && r.0.status == g.status
      && (if Blank(body) && moves == [] then r == (g, Some(EmptyProgress))
          else r.0.timeline == g.timeline + (if Blank(body) then [] else [Noted(kind, body, Trim(step), Trim(why))])
               && exists i :: 0 <= i < |moves| && moves[i].name !in Names(g.metrics))
  {
    UnknownNamesAreRefused(g.metrics, moves);
    assert g.timeline + [] == g.timeline;
  }

  // ------------------------------------------------- reading a legal history

  lemma FitsAt(timeline: seq<Entry>, i: nat)
    requires Legal(timeline) && 1 <= i < |timeline|
    ensures Fits(Replay(timeline[..i]), timeline[i])
    ensures Replay(timeline[..i + 1]) == Read(Replay(timeline[..i]), timeline[i])
  {
    assert FitsThere(timeline, i);
    assert timeline[..i + 1] == timeline[..i] + [timeline[i]];
    ReplayNext(timeline[..i], timeline[i]);
  }

  /** An entry that leaves a goal in review proposed it or changed nothing. */
  lemma EntryToReview(s: Shown, e: Entry)
    requires Fits(s, e) && Read(s, e).status == Review
    ensures Read(s, e) == s || (s.status == Active && ProposalOf(e, Read(s, e).closingReport))
  {
  }

  predicate ProposalOf(e: Entry, report: string) {
    e == CompletionProposed(report) && !Blank(report)
  }

  /** In a legal history a goal in review got there by the last proposal, which nothing has undone since. */
  lemma {:induction false} ReviewWasProposed(timeline: seq<Entry>, n: nat) returns (i: nat)
    requires Legal(timeline) && 1 <= n <= |timeline| && Replay(timeline[..n]).status == Review
    ensures 1 <= i < n && ProposalOf(timeline[i], Replay(timeline[..n]).closingReport)
    ensures Replay(timeline[..i]).status == Active
    ensures forall j :: i < j <= n ==> Replay(timeline[..j]) == Replay(timeline[..n])
    decreases n
  {
    StartsActive(timeline);
    var shown, e := Replay(timeline[..n - 1]), timeline[n - 1];
    FitsAt(timeline, n - 1);
    EntryToReview(shown, e);
    if Read(shown, e) == shown { i := ReviewWasProposed(timeline, n - 1); } else { i := n - 1; }
  }

  lemma StartsActive(timeline: seq<Entry>)
    requires Legal(timeline)
    ensures Replay(timeline[..1]) == Shown(Active, "")
  {
    assert timeline[..1] == [] + [timeline[0]];
    ReplayNext([], timeline[0]);
  }

  /**
   * In a legal history a goal becomes done only by the user's change from
   * review, which a proposal with a real report had brought about.
   */
  lemma DoneWasReviewed(timeline: seq<Entry>, n: nat) returns (i: nat)
    requires Legal(timeline) && 1 <= n < |timeline|
    requires Replay(timeline[..n + 1]).status == Done && Replay(timeline[..n]).status != Done
    ensures timeline[n].StatusChange? && timeline[n].before == Review && timeline[n].after == Done
    ensures 1 <= i < n && ProposalOf(timeline[i], Replay(timeline[..n + 1]).closingReport)
  {
    FitsAt(timeline, n);
    i := ReviewWasProposed(timeline, n);
  }

  /** A done goal has been done since the last time it became so. */
  lemma {:induction false} DoneSince(timeline: seq<Entry>, m: nat) returns (n: nat)
    requires Legal(timeline) && 1 <= m <= |timeline| && Replay(timeline[..m]).status == Done
    ensures 1 <= n < m && Replay(timeline[..n]).status != Done
    ensures forall j :: n < j <= m ==> Replay(timeline[..j]) == Replay(timeline[..m])
    decreases m
  {
    StartsActive(timeline);
    FitsAt(timeline, m - 1);
    if Replay(timeline[..m - 1]).status == Done { n := DoneSince(timeline, m - 1); } else { n := m - 1; }
  }

  /**
   * Whatever happened to a goal since it was created: if it is in review, an
   * agent proposed it while it was active, with the report it shows, and nothing
   * has touched that since; if it is done, the user moved it there from review.
   */
  lemma ReachedByTheRules(w: World, brief: Brief, metrics: seq<Metric>, reviewEvery: string, now: int, actions: seq<Action>)
      returns (proposed: nat, done: nat)
    requires Create(w, brief, metrics, reviewEvery, now).Ok?
    ensures var g := After(w, Create(w, brief, metrics, reviewEvery, now).value, actions);
      var t := g.timeline;
      && Recorded(g)
      && (g.status == Review ==>
            && 1 <= proposed < |t| && ProposalOf(t[proposed], g.closingReport) && Replay(t[..proposed]).status == Active
            && forall j :: proposed < j <= |t| ==> Replay(t[..j]) == Shown(Review, g.closingReport))
      && (g.status == Done ==>
            && 1 <= proposed < done < |t| && ProposalOf(t[proposed], g.closingReport)
            && t[done].StatusChange? && t[done].before == Review && t[done].after == Done
            && forall j :: done < j <= |t| ==> Replay(t[..j]) == Shown(Done, g.closingReport))
  {
    CreateRecords(w, brief, metrics, reviewEvery, now);
    EveryRunRecords(w, Create(w, brief, metrics, reviewEvery, now).value, actions);
    var g := After(w, Create(w, brief, metrics, reviewEvery, now).value, actions);
    var t := g.timeline;
    proposed, done := 0, 0;
    assert t[..|t|] == t;
    if g.status == Review {
      proposed := ReviewWasProposed(t, |t|);
    } else if g.status == Done {
      done := DoneSince(t, |t|);
      proposed := DoneWasReviewed(t, done);
    }
  }

  // ------------------------------------------- what an operation does, in full

  /** When a goal of this cadence is next due: that long from now, if it is a quarter of an hour or more. */
  function Due(w: World, cadence: string, now: int): Option<int> {
    if Blank(cadence) || w.duration(Trim(cadence)).None? || w.duration(Trim(cadence)).value < 15 * 60 then None
    else Some(now + w.duration(Trim(cadence)).value)
  }

  predicate Readable(w: World, cadence: string) {
    Blank(cadence) || (w.duration(Trim(cadence)).Some? && w.duration(Trim(cadence)).value >= 15 * 60)
  }

  lemma CadencesAreDue(w: World, cadence: string, now: int)
    ensures Wound(w, cadence, now) == Due(w, cadence, now)
    ensures Cadence(w, cadence).Some? <==> Readable(w, cadence)
    ensures Cadence(w, cadence).Some? ==> NextReviewFrom(now, Cadence(w, cadence).value) == Due(w, cadence, now)
  {
  }

  /** The changes of status a user may make. */
  const MOVES: set<(Status, Status)> :=
    { (Paused, Active), (Review, Active), (Done, Active), (Abandoned, Active),
      (Active, Paused), (Review, Paused), (Review, Done),
      (Active, Abandoned), (Paused, Abandoned), (Review, Abandoned) }

  lemma AllowedExactly(before: Status, after: Status)
    ensures Allowed(before, after) <==> (before, after) in MOVES
  {
  }

  /** The goal after a change of status. */
  function Changed(w: World, g: Goal, after: Status, note: string, now: int): Goal {
    g.(status := after,
       nextReview := if after == Active then Due(w, g.reviewEvery, now) else None,
       closingReport := if after == Active then "" else g.closingReport,
       nextStep := if after == Done || after == Abandoned then "" else g.nextStep,
       nextWhy := if after == Done || after == Abandoned then "" else g.nextWhy,
       timeline := g.timeline + [StatusChange(g.status, after, note)])
  }

  /** A change of status is one of those moves, and a goal with a blocked memory does not resume. */
  lemma TransitionFollows(w: World, g: Goal, after: Status, note: string, now: int)
    requires g.status != after
    ensures var r := Transition(w, g, after, note, now);
      && (r.Ok? <==> (g.status, after) in MOVES && !(g.status == Paused && after == Active && g.memoryBlocked))
      && (r.Ok? ==> r.value == Changed(w, g, after, note, now))
  {
    AllowedExactly(g.status, after);
    CadencesAreDue(w, g.reviewEvery, now);
  }

  /** What a goal is asked to be, when it is created. */
  predicate BriefIsProper(w: World, b: Brief) {
    && !Blank(b.title) && b.lead in w.agents && (b.project == "" || b.project in w.projects)
    && w.targetOk(b.lead, Target(Trim(b.target.provider), Trim(b.target.profile), Trim(b.target.model), Trim(b.target.effort)))
  }

  lemma CreateFollows(w: World, brief: Brief, metrics: seq<Metric>, reviewEvery: string, now: int)
    ensures var r := Create(w, brief, metrics, reviewEvery, now);
      && (r.Ok? <==> BriefIsProper(w, brief) && !Blank(brief.lead) && Readable(w, reviewEvery))
      && (r.Ok? ==> r.value == Goal(brief, metrics, reviewEvery, Active, Due(w, reviewEvery, now), "", "", "", false, [Created]))
  {
    CadencesAreDue(w, reviewEvery, now);
  }

  function Given<T>(o: Option<T>, was: T): T {
    match o case None => was case Some(x) => x
  }

  function GivenTrimmed(o: Option<string>, was: string): string {
    match o case None => was case Some(x) => Trim(x)
  }

  /** A patched brief, field by field; a new lead starts without a conversation. */
  predicate BriefFollows(b: Brief, p: Patch, after: Brief) {
    && after.title == GivenTrimmed(p.title, b.title)
    && after.description == Given(p.description, b.description) && after.criteria == Given(p.criteria, b.criteria)
    && after.lead == Given(p.lead, b.lead) && after.project == Given(p.project, b.project)
    && after.leadSession == (if p.lead.Some? && p.lead.value != b.lead then "" else b.leadSession)
    && after.target.provider == GivenTrimmed(p.provider, b.target.provider)
    && after.target.profile == GivenTrimmed(p.profile, b.target.profile)
    && after.target.model == GivenTrimmed(p.model, b.target.model)
    && after.target.effort == GivenTrimmed(p.effort, b.target.effort)
  }

  /** What a patch must bring. */
  predicate PatchIsProper(w: World, b: Brief, p: Patch) {
    && !(p.fromAgent && (p.title.Some? || p.lead.Some? || p.project.Some?))
    && (p.title.Some? ==> !Blank(p.title.value))
    && (p.lead.Some? ==> p.lead.value in w.agents)
    && (p.project.Some? ==> p.project.value == "" || p.project.value in w.projects)
    && (p.reviewEvery.Some? ==> Readable(w, p.reviewEvery.value))
    && w.targetOk(Given(p.lead, b.lead), TargetAsked(b.target, p))
  }

  function TargetAsked(t: Target, p: Patch): Target {
    Target(Trim(GivenTrimmed(p.provider, t.provider)), Trim(GivenTrimmed(p.profile, t.profile)),
           Trim(GivenTrimmed(p.model, t.model)), Trim(GivenTrimmed(p.effort, t.effort)))
  }

  lemma TargetIsAsked(b: Brief, p: Patch)
    ensures TrimTarget(PatchedBrief(b, p).target) == TargetAsked(b.target, p) && PatchedBrief(b, p).lead == Given(p.lead, b.lead)
  {
  }

  /** An update is accepted exactly if its patch is proper, and then changes what the patch says and nothing else. */
  lemma UpdateFollows(w: World, g: Goal, p: Patch, now: int)
    ensures var r := Update(w, g, p, now);
      && (r.Ok? <==> PatchIsProper(w, g.brief, p))
      && (r.Ok? ==>
            && BriefFollows(g.brief, p, r.value.brief)
            && r.value == g.(brief := r.value.brief, metrics := Given(p.metrics, g.metrics),
                 reviewEvery := GivenTrimmed(p.reviewEvery, g.reviewEvery),
                 nextReview := if p.reviewEvery.Some? && g.status == Active then Due(w, p.reviewEvery.value, now) else g.nextReview))
  {
    if p.reviewEvery.Some? { CadencesAreDue(w, p.reviewEvery.value, now); }
    PatchIsAcceptedExactly(w, g.brief, p);
    PatchedBriefFollows(g.brief, p);
  }

  lemma PatchIsAcceptedExactly(w: World, b: Brief, p: Patch)
    ensures PatchError(w, b, p).None? <==> PatchIsProper(w, b, p)
  {
    if p.reviewEvery.Some? { CadencesAreDue(w, p.reviewEvery.value, 0); }
    TargetIsAsked(b, p);
  }

  lemma PatchedBriefFollows(b: Brief, p: Patch)
    ensures BriefFollows(b, p, PatchedBrief(b, p))
  {
  }

  /** What a progress entry leaves besides the metrics: its note, and the next step if it states one. */
  predicate NoteFollows(g: Goal, h: Goal, kind: ProgressKind, body: string, step: string, why: string) {
    && h.brief == g.brief && h.reviewEvery == g.reviewEvery && h.status == g.status && h.nextReview == g.nextReview
    && h.closingReport == g.closingReport && h.memoryBlocked == g.memoryBlocked
    && h.nextStep == (if Blank(step) && Blank(why) then g.nextStep else Trim(step))
    && h.nextWhy == (if Blank(step) && Blank(why) then g.nextWhy else Trim(why))
    && g.timeline + (if Blank(body) then [] else [Noted(kind, body, Trim(step), Trim(why))]) <= h.timeline
    && |h.timeline| <= |g.timeline| + 2
  }

  /** The first metric of each name stands where its last move puts it; nothing else about a metric changes. */
  ghost predicate MetricsFollow(before: seq<Metric>, moves: seq<Move>, after: seq<Metric>) {
    && |after| == |before|
    && forall j: nat :: j < |before| ==>
         && (forall k: nat :: FirstOfName(before, j) && LastMove(moves, before[j].name, k) ==>
               after[j] == before[j].(current := moves[k].current))
         && (!FirstOfName(before, j) || Unmoved(moves, before[j].name) ==> after[j] == before[j])
  }

  lemma {:induction false} AppliedFollow(metrics: seq<Metric>, moves: seq<Move>)
    requires Apply(metrics, moves).Ok?
    ensures MetricsFollow(metrics, moves, Apply(metrics, moves).value.metrics)
  {
    DeltasAreExact(metrics, moves);
    forall j: nat | j < |metrics|
      ensures var r := Apply(metrics, moves).value.metrics;
        && |r| == |metrics|
        && (forall k: nat :: FirstOfName(metrics, j) && LastMove(moves, metrics[j].name, k) ==>
              r[j] == metrics[j].(current := moves[k].current))
        && (!FirstOfName(metrics, j) || Unmoved(moves, metrics[j].name) ==> r[j] == metrics[j])
    {
      MovesOnlyCurrent(metrics, moves, j);
    }
  }

  lemma RecordFollows(g: Goal, kind: ProgressKind, body: string, moves: seq<Move>, step: string, why: string)
    ensures var r := Record(g, kind, body, moves, step, why);
      && (r.1 == Some(EmptyProgress) <==> Blank(body) && moves == [])
      && (Blank(body) && moves == [] ==> r.0 == g)
      && (!(Blank(body) && moves == []) ==> NoteFollows(g, r.0, kind, body, step, why))
      && (r.1.None? ==> MetricsFollow(g.metrics, moves, r.0.metrics))
  {
    var h := Restep(Note(g, kind, body, step, why), step, why);
    assert g.timeline + [] == g.timeline;
    assert h.metrics == g.metrics;
    if Apply(g.metrics, moves).Ok? { AppliedFollow(g.metrics, moves); }
  }
}
