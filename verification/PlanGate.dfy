/**
 * The plan gate of a session: plan mode is raised, a plan is submitted, and the
 * user approves it, asks for changes or rejects it.
 */
module PlanGate {
  import opened Seqs
  import opened Text
  import opened PlanPaths

  datatype PlanState = NoPlan | PendingSubmission | AwaitingApproval

  /** Empty texts stand for what is not there. */
  datatype PlanInfo = PlanInfo(path: string, markdown: string, submittedAt: string, updatedAt: string)

  const NO_INFO: PlanInfo := PlanInfo("", "", "", "")

  /**
   * A session's plan, and the files on disk. submitted and approved record
   * the markdown of every accepted submission and the plan last approved.
   */
  datatype Session = Session(
    state: PlanState, explicit: bool, info: PlanInfo, yolo: bool, handle: string,
    files: set<seq<string>>, submitted: seq<string>, approved: Option<PlanInfo>)

  datatype GateError = MarkdownRequired | HeadingsMissing | BadPath(error: PathError) | WriteFailed | NotAwaiting | FeedbackRequired

  /** Where the daemon runs, and what a step finds out by trying: do the headings fit, does the disk work. */
  datatype Setting = Setting(cwd: seq<string>, planDir: string, headingsOk: string -> bool, diskOk: bool, now: string, freshName: string)

  /** The last segment of a path. */
  function Base(path: string): string {
    LastNonEmpty(Split(path))
  }

  function LastNonEmpty(segments: seq<string>): string {
    if segments == [] then "/"
    else if segments[|segments| - 1] != "" then segments[|segments| - 1]
    else LastNonEmpty(segments[..|segments| - 1])
  }

  /** writeCanonicalPlan's file: the one already in use, if it is a proper plan file, or a fresh one. */
  function CanonicalPath(w: Setting, existing: string): seq<string>
    requires AllPlain(w.cwd)
  {
    var path := Trim(existing);
    var name := if path != "" && ValidatePlanPath(w.cwd, w.planDir, path).Ok? then Base(path) else w.freshName;
    Abs(w.cwd, w.planDir + "/" + name)
  }

  predicate GateActive(s: Session) {
    s.state == PendingSubmission || s.state == AwaitingApproval
  }

  function Create(planFirst: bool, yolo: bool): Session {
    Session(if planFirst then PendingSubmission else NoPlan, planFirst, NO_INFO, yolo, "", {}, [], None)
  }

  function SetPlanMode(s: Session, on: bool): Session {
    if on then
      if GateActive(s) then s else s.(state := PendingSubmission, explicit := true, info := NO_INFO)
    else if s.state == NoPlan then s
    else s.(state := NoPlan, explicit := false, info := NO_INFO)
  }

  /** The path a submission stores. */
  function PlanPath(w: Setting, s: Session, native: bool, file: string): Result<seq<string>, GateError>
    requires AllPlain(w.cwd)
  {
    if native then
      if w.diskOk then Ok(CanonicalPath(w, s.info.path)) else Err(WriteFailed)
    else
      var r := ValidatePlanPath(w.cwd, w.planDir, file);
      if r.Ok? then Ok(r.value) else Err(BadPath(r.error))
  }

  function Submitted(w: Setting, s: Session, markdown: string, path: seq<string>, native: bool): Session {
    s.(state := AwaitingApproval,
       info := PlanInfo(PathText(path), markdown, if s.info.submittedAt == "" then w.now else s.info.submittedAt, w.now),
       files := if native then s.files + {path} else s.files,
       submitted := s.submitted + [markdown])
  }

  /** submitPlan accepts a plan in every state; a native plan needs no headings and is written by the daemon. */
  function Submit(w: Setting, s: Session, native: bool, raw: string, file: string): Result<Session, GateError>
    requires AllPlain(w.cwd)
  {
    var markdown := Trim(raw);
    if markdown == "" then Err(MarkdownRequired)
    else if !native && !w.headingsOk(markdown) then Err(HeadingsMissing)
    else
      var path := PlanPath(w, s, native, file);
      if path.Err? then Err(path.error) else Ok(Submitted(w, s, markdown, path.value, native))
  }

  function Approve(s: Session): Result<Session, GateError> {
    if s.state != AwaitingApproval then Err(NotAwaiting)
    else Ok(s.(state := NoPlan, explicit := false, handle := if s.yolo then "" else s.handle, approved := Some(s.info)))
  }

  /** FeedbackPlan changes nothing: the revision turn stays in plan mode. */
  function Feedback(s: Session, feedback: string): Result<Session, GateError> {
    if s.state != AwaitingApproval then Err(NotAwaiting)
    else if Blank(feedback) then Err(FeedbackRequired)
    else Ok(s)
  }

  /** RejectPlan deletes the plan file, but only one inside the plans directory. */
  function Reject(w: Setting, s: Session): Result<Session, GateError>
    requires AllPlain(w.cwd)
  {
    if s.state != AwaitingApproval then Err(NotAwaiting)
    else
      var r := ValidatePlanPath(w.cwd, w.planDir, s.info.path);
      if Trim(s.info.path) != "" && r.Err? then Err(BadPath(r.error))
      else if Trim(s.info.path) != "" && !w.diskOk then Err(WriteFailed)
      else Ok(s.(state := NoPlan, explicit := false, info := NO_INFO,
                 files := if Trim(s.info.path) == "" then s.files else s.files - {r.value}))
  }

  // ------------------------------------------------------------------ runs

  /** DoWrite: an agent writes a file of its own, which may be the plan it then submits. */
  datatype Action =
    | DoWrite(written: seq<string>)
    | DoSetMode(on: bool)
    | DoSubmit(native: bool, raw: string, file: string)
    | DoApprove
    | DoFeedback(text: string)
    | DoReject

  function OkOr(r: Result<Session, GateError>, s: Session): Session {
    if r.Ok? then r.value else s
  }

  /** Each action meets the disk and the clock as they are at that time. */
  function Act(s: Session, w: Setting, a: Action): Session
    requires AllPlain(w.cwd)
  {
    match a
    case DoWrite(written) => s.(files := s.files + {written})
    case DoSetMode(on) => SetPlanMode(s, on)
    case DoSubmit(native, raw, file) => OkOr(Submit(w, s, native, raw, file), s)
    case DoApprove => OkOr(Approve(s), s)
    case DoFeedback(text) => OkOr(Feedback(s, text), s)
    case DoReject => OkOr(Reject(w, s), s)
  }

  function After(s: Session, steps: seq<(Setting, Action)>): Session
    requires forall i :: 0 <= i < |steps| ==> AllPlain(steps[i].0.cwd)
    decreases |steps|
  {
    if steps == [] then s
    else
      assert forall i :: 0 <= i < |steps| - 1 ==> steps[1..][i] == steps[i + 1];
      After(Act(s, steps[0].0, steps[0].1), steps[1..])
  }

  // -------------------------------------------------------------- invariant

  predicate IsLast(markdowns: seq<string>, markdown: string) {
    markdowns != [] && markdowns[|markdowns| - 1] == markdown
  }

  /** What an accepted submission stores. */
  predicate Stored(info: PlanInfo) {
    !Blank(info.markdown) && info.path != "" && info.path[0] == '/'
  }

  /**
   * A plan awaiting approval is a real one, and the last one submitted; a
   * session yet to submit holds none; and a plan held with the gate down is the
   * one that was awaiting when the user last approved.
   */
  predicate Inv(s: Session) {
    match s.state
    case AwaitingApproval => Stored(s.info) && IsLast(s.submitted, s.info.markdown)
    case PendingSubmission => s.info == NO_INFO && s.explicit
    case NoPlan => !s.explicit && (s.info == NO_INFO || (s.approved == Some(s.info) && Stored(s.info)))
  }

  lemma SubmitInv(w: Setting, s: Session, native: bool, raw: string, file: string)
    requires AllPlain(w.cwd)
    ensures var r := Submit(w, s, native, raw, file); r.Ok? ==> Inv(r.value) && r.value.info.markdown == Trim(raw)
  {
    TrimmedIsFixed(Trim(raw));
  }

  lemma ActInv(s: Session, w: Setting, a: Action)
    requires AllPlain(w.cwd) && Inv(s)
    ensures Inv(Act(s, w, a))
  {
    match a
    case DoWrite(_) =>
    case DoSetMode(on) =>
    case DoSubmit(native, raw, file) => SubmitInv(w, s, native, raw, file);
    case DoApprove =>
    case DoFeedback(text) =>
    case DoReject =>
  }

  lemma {:induction false} EveryRunKeepsInv(s: Session, steps: seq<(Setting, Action)>)
    requires (forall i :: 0 <= i < |steps| ==> AllPlain(steps[i].0.cwd)) && Inv(s)
    ensures Inv(After(s, steps))
    decreases |steps|
  {
    if steps != [] {
      assert forall i :: 0 <= i < |steps| - 1 ==> steps[1..][i] == steps[i + 1];
      ActInv(s, steps[0].0, steps[0].1);
      EveryRunKeepsInv(Act(s, steps[0].0, steps[0].1), steps[1..]);
    }
  }

  /** Every session a run can reach, from either way of creating one. */
  lemma {:induction false} ReachableSessions(planFirst: bool, yolo: bool, steps: seq<(Setting, Action)>)
    requires forall i :: 0 <= i < |steps| ==> AllPlain(steps[i].0.cwd)
    ensures var s := After(Create(planFirst, yolo), steps);
      && (GateActive(s) <==> s.state != NoPlan)
      && (s.state == AwaitingApproval ==> !Blank(s.info.markdown) && s.info.path != "" && IsLast(s.submitted, s.info.markdown))
      && (s.state == PendingSubmission ==> s.info == NO_INFO)
      && (s.state == NoPlan && s.info != NO_INFO ==> s.approved == Some(s.info))
  {
    EveryRunKeepsInv(Create(planFirst, yolo), steps);
  }

  /** Only an approval, of the plan then awaiting, changes what counts as approved. */
  lemma OnlyApprovalApproves(s: Session, w: Setting, a: Action)
    requires AllPlain(w.cwd) && Inv(s) && Act(s, w, a).approved != s.approved
    ensures a.DoApprove? && s.state == AwaitingApproval && Act(s, w, a).approved == Some(s.info)
    ensures IsLast(s.submitted, s.info.markdown) && Act(s, w, a).info == s.info && !GateActive(Act(s, w, a))
  {
    match a
    case DoWrite(_) =>
    case DoSetMode(on) =>
    case DoSubmit(native, raw, file) =>
    case DoApprove =>
    case DoFeedback(text) =>
    case DoReject =>
  }

  /** The only file an action takes away, whoever wrote it, is the rejected plan's, and that one lies inside the plans directory. */
  lemma OnlyRejectionDeletes(s: Session, w: Setting, a: Action, file: seq<string>)
    requires AllPlain(w.cwd) && file in s.files && file !in Act(s, w, a).files
    ensures a.DoReject? && s.state == AwaitingApproval && file == Abs(w.cwd, Trim(s.info.path))
    ensures Inside(Abs(w.cwd, w.planDir), file)
  {
    AcceptedExactlyInside(w.cwd, w.planDir, s.info.path);
    match a
    case DoWrite(_) =>
    case DoSetMode(on) =>
    case DoSubmit(native, raw, f) =>
    case DoApprove =>
    case DoFeedback(text) =>
    case DoReject =>
  }

  predicate Plainly(steps: seq<(Setting, Action)>) {
    forall i :: 0 <= i < |steps| ==> AllPlain(steps[i].0.cwd)
  }

  lemma {:induction false} OneMore(s: Session, steps: seq<(Setting, Action)>, k: nat)
    requires Plainly(steps) && k < |steps|
    ensures After(s, steps[..k + 1]) == Act(After(s, steps[..k]), steps[k].0, steps[k].1)
    decreases k
  {
    var next := Act(s, steps[0].0, steps[0].1);
    assert steps[..k + 1][1..] == steps[1..][..k];
    if k > 0 {
      OneMore(next, steps[1..], k - 1);
      assert steps[..k][1..] == steps[1..][..k - 1];
    }
  }

  /**
   * The plan that counts as approved in a run was approved by the user at some
   * step, when it was awaiting approval and the last one submitted, and nothing
   * has changed what counts since.
   */
  lemma {:induction false} ApprovedWasAwaiting(planFirst: bool, yolo: bool, steps: seq<(Setting, Action)>,
      n: nat) returns (i: nat)
    requires Plainly(steps) && n <= |steps| && After(Create(planFirst, yolo), steps[..n]).approved.Some?
    ensures i < n && steps[i].1.DoApprove?
    ensures var start, approved := Create(planFirst, yolo), After(Create(planFirst, yolo), steps[..n]).approved;
      var s := After(start, steps[..i]);
      && s.state == AwaitingApproval && Some(s.info) == approved && IsLast(s.submitted, s.info.markdown)
      && forall j :: i < j <= n ==> After(start, steps[..j]).approved == approved
    decreases n
  {
    var start := Create(planFirst, yolo);
    var k := n - 1;
    var s := After(start, steps[..k]);
    EveryRunKeepsInv(start, steps[..k]);
    OneMore(start, steps, k);
    if s.approved == After(start, steps[..n]).approved {
      i := ApprovedWasAwaiting(planFirst, yolo, steps, k);
    } else {
      OnlyApprovalApproves(s, steps[k].0, steps[k].1);
      i := k;
    }
  }

  /**
   * A file that was there and is gone, whoever wrote it, was taken away by a
   * rejection, as the file of the plan then awaiting approval, from inside the
   * plans directory.
   */
  lemma {:induction false} GoneWasRejected(s: Session, steps: seq<(Setting, Action)>, n: nat,
      file: seq<string>) returns (i: nat)
    requires Plainly(steps) && n <= |steps| && file in s.files && file !in After(s, steps[..n]).files
    ensures i < n && steps[i].1.DoReject?
    ensures var w, t := steps[i].0, After(s, steps[..i]);
      && t.state == AwaitingApproval && file in t.files && file == Abs(w.cwd, Trim(t.info.path))
      && Inside(Abs(w.cwd, w.planDir), file)
    decreases n
  {
    var k := n - 1;
    OneMore(s, steps, k);
    if file in After(s, steps[..k]).files {
      OnlyRejectionDeletes(After(s, steps[..k]), steps[k].0, steps[k].1, file);
      i := k;
    } else {
      i := GoneWasRejected(s, steps, k, file);
    }
  }

  /** The last segment of a written path is its base. */
  lemma BaseOfPath(path: seq<string>)
    requires AllPlain(path) && path != []
    ensures Base(PathText(path)) == path[|path| - 1]
  {
    SplitSlashed(path);
    assert PathText(path)[1..] == Slashed(path);
    assert Split(PathText(path)) == [""] + path;
  }

  /**
   * Where the daemon writes a native plan: in the plans directory itself, under
   * the last name of the path stored so far if that lies inside the directory,
   * and under a fresh name otherwise.
   */
  lemma NativePlanPlace(w: Setting, path: seq<string>)
    requires AllPlain(w.cwd) && w.planDir != "" && AllPlain(path) && path != [] && Trimmed(PathText(path))
    ensures CanonicalPath(w, "") == Abs(w.cwd, w.planDir + "/" + w.freshName)
    ensures CanonicalPath(w, PathText(path)) ==
      if Inside(Abs(w.cwd, w.planDir), path) then Abs(w.cwd, w.planDir) + [path[|path| - 1]]
      else Abs(w.cwd, w.planDir + "/" + w.freshName)
  {
    var text := PathText(path);
    TrimmedIsFixed(text);
    ReadingBack(w.cwd, path);
    AcceptedExactlyInside(w.cwd, w.planDir, text);
    BaseOfPath(path);
    OneBelow(w.cwd, w.planDir, path[|path| - 1]);
  }

  /** A native plan already kept in the plans directory is revised in the same file, whatever the time. */
  lemma RevisionKeepsTheFile(w: Setting, name: string)
    requires AllPlain(w.cwd) && w.planDir != "" && Plain(name)
    requires var path := Abs(w.cwd, w.planDir) + [name]; Trimmed(PathText(path))
    ensures var path := Abs(w.cwd, w.planDir) + [name];
      CanonicalPath(w, PathText(path)) == path
  {
    NativePlanPlace(w, Abs(w.cwd, w.planDir) + [name]);
  }

  // ------------------------------------------------------------- the object

  class PlanSession {
    var session: Session

    ghost predicate Valid()
      reads this
    {
      Inv(session)
    }

    constructor (planFirst: bool, yolo: bool)
      ensures Valid() && session == Create(planFirst, yolo)
    {
      session := Create(planFirst, yolo);
    }

    /** UpdateSessionPlanState */
    method Update(state: PlanState, explicit: bool, info: PlanInfo)
      modifies this
      ensures session == old(session).(state := state, explicit := explicit, info := info)
    {
      session := session.(state := state, explicit := explicit, info := info);
    }

    /**
     * Turning plan mode on raises the gate, and keeps a plan only where one is
     * awaiting approval; turning it off drops a plan that was not approved, and
     * leaves its file.
     */
    method SetMode(on: bool)
      requires Valid()
      modifies this
      ensures Valid() && session == SetPlanMode(old(session), on) && (session.state != NoPlan <==> on)
      ensures session ==
        if on == (old(session).state != NoPlan) then old(session)
        else if on then old(session).(state := PendingSubmission, explicit := true, info := NO_INFO)
        else old(session).(state := NoPlan, explicit := false, info := NO_INFO)
      ensures session.info != NO_INFO ==>
        session.info == old(session).info && (session.state == AwaitingApproval || session.approved == Some(session.info))
    {
      if on {
        if GateActive(session) { return; }
        Update(PendingSubmission, true, NO_INFO);
        return;
      }
      if session.state == NoPlan { return; }
      Update(NoPlan, false, NO_INFO);
    }

    /**
     * A plan is accepted in every state: a native one if the disk takes it, one
     * submitted by path if it has its headings and lies inside the plans
     * directory. It then awaits approval under its cleaned path, and the time of
     * its first submission stays. A refusal changes nothing.
     */
    method SubmitPlan(w: Setting, native: bool, raw: string, file: string) returns (refused: Option<GateError>)
      requires Valid() && AllPlain(w.cwd)
      modifies this
      ensures Valid() && session == OkOr(Submit(w, old(session), native, raw, file), old(session))
      ensures refused.None? <==>
        && Trim(raw) != ""
        && (if native then w.diskOk
            else w.headingsOk(Trim(raw)) && Trim(file) != "" && Inside(Abs(w.cwd, w.planDir), Abs(w.cwd, Trim(file))))
      ensures refused.None? ==>
        var was, path := old(session), if native then CanonicalPath(w, old(session).info.path) else Abs(w.cwd, Trim(file));
        session == Session(
          AwaitingApproval, was.explicit,
          PlanInfo("/" + Join(path, "/"), Trim(raw), if was.info.submittedAt == "" then w.now else was.info.submittedAt, w.now),
          was.yolo, was.handle, if native then was.files + {path} else was.files, was.submitted + [Trim(raw)], was.approved)
      ensures refused.Some? ==> session == old(session)
      ensures refused.Some? ==>
        refused.value == (
          if Trim(raw) == "" then MarkdownRequired
          else if native then WriteFailed
          else if !w.headingsOk(Trim(raw)) then HeadingsMissing
          else BadPath(if Trim(file) == "" then PathRequired else OutsidePlans))
    {
      ActInv(session, w, DoSubmit(native, raw, file));
      AcceptedExactlyInside(w.cwd, w.planDir, file);
      var markdown := Trim(raw);
      if markdown == "" { return Some(MarkdownRequired); }
      if !native && !w.headingsOk(markdown) { return Some(HeadingsMissing); }
      var path := PlanPath(w, session, native, file);
      if path.Err? { return Some(path.error); }
      var submittedAt := session.info.submittedAt;
      if submittedAt == "" { submittedAt := w.now; }
      if native { session := session.(files := session.files + {path.value}); }
      Update(AwaitingApproval, session.explicit, PlanInfo(PathText(path.value), markdown, submittedAt, w.now));
      session := session.(submitted := session.submitted + [markdown]);
      refused := None;
    }

    /** What is approved is the plan awaiting approval, the last one submitted; the gate is then down and the plan stays. */
    method ApprovePlan() returns (refused: Option<GateError>)
      requires Valid()
      modifies this
      ensures Valid() && session == OkOr(Approve(old(session)), old(session))
      ensures refused.None? <==> old(session).state == AwaitingApproval
      ensures refused.None? ==>
        var was := old(session);
        && session == was.(state := NoPlan, explicit := false, approved := Some(was.info), handle := if was.yolo then "" else was.handle)
        && IsLast(session.submitted, session.info.markdown)
      ensures refused.Some? ==> session == old(session)
    {
      if session.state != AwaitingApproval { return Some(NotAwaiting); }
      session := session.(approved := Some(session.info));
      Update(NoPlan, false, session.info);
      if session.yolo { session := session.(handle := ""); }
      refused := None;
    }

    /** Asking for changes takes a plan awaiting approval and something to say, and leaves the gate up. */
    method FeedbackPlan(feedback: string) returns (refused: Option<GateError>)
      requires Valid()
      ensures refused.None? <==> session.state == AwaitingApproval && Trim(feedback) != ""
      ensures refused.Some? ==> refused.value == if session.state == AwaitingApproval then FeedbackRequired else NotAwaiting
      ensures session == OkOr(Feedback(session, feedback), session)
      ensures refused.None? <==> Feedback(session, feedback).Ok?
    {
      if session.state != AwaitingApproval { return Some(NotAwaiting); }
      if Trim(feedback) == "" { return Some(FeedbackRequired); }
      refused := None;
    }

    /** A rejected plan is gone, and of the files at most its own, which lies inside the plans directory. */
    method RejectPlan(w: Setting) returns (refused: Option<GateError>)
      requires Valid() && AllPlain(w.cwd)
      modifies this
      ensures Valid() && session == OkOr(Reject(w, old(session)), old(session))
      ensures var was, path := old(session), Trim(old(session).info.path);
        && (refused.None? <==>
              && was.state == AwaitingApproval
              && (path == "" || (w.diskOk && Inside(Abs(w.cwd, w.planDir), Abs(w.cwd, path)))))
        && (refused.None? ==>
              session == was.(state := NoPlan, explicit := false, info := PlanInfo("", "", "", ""),
                              files := if path == "" then was.files else was.files - {Abs(w.cwd, path)}))
      ensures refused.Some? ==> session == old(session)
    {
      AcceptedExactlyInside(w.cwd, w.planDir, session.info.path);
      if session.state != AwaitingApproval { return Some(NotAwaiting); }
      if Trim(session.info.path) != "" {
        var r := ValidatePlanPath(w.cwd, w.planDir, session.info.path);
        if r.Err? { return Some(BadPath(r.error)); }
        if !w.diskOk { return Some(WriteFailed); }
        session := session.(files := session.files - {r.value});
      }
      Update(NoPlan, false, NO_INFO);
      refused := None;
    }
  }
}
