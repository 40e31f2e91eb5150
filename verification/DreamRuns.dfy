/** What whole runs of the dreaming machine guarantee: whose edits survive, and how a backlog drains. */
module DreamRuns {
  import opened Seqs
  import opened Text
  import opened Dreams

  // --------------------------------------------------- edits and dream writes

  /** An agent's memory file after some actions, as far as edits go. */
  function LastEdit(actions: seq<Action>, agent: string, now: string): string
    decreases |actions|
  {
    if actions == [] then now
    else LastEdit(actions[1..], agent, if actions[0].Edit? && actions[0].agent == agent then actions[0].text else now)
  }

  /** The steps of a dream up to its check, which only read. */
  predicate Prepares(a: Action) {
    a.Begin? || a.ReadFails? || a.List? || a.Gather? || a.Distil? || a.Check?
  }

  predicate WritesNot(a: Action, run: nat) {
    !(a.Write? && a.run == run)
  }

  lemma OthersPrepare(s: State, a: Action, run: nat)
    requires Inv(s) && At(s, run, Checked) && Prepares(a)
    ensures At(Step(s, a), run, Checked) && Step(s, a).runs[run] == s.runs[run]
  {
    if a.Begin? { assert run != s.next; }
  }

  /** A dream's own steps leave the other dreams alone. */
  lemma OthersStandBy(s: State, a: Action, run: nat)
    requires Inv(s) && At(s, run, Checked) && WritesNot(a, run)
    ensures At(Step(s, a), run, Checked) && Step(s, a).runs[run] == s.runs[run]
  {
    if Prepares(a) { OthersPrepare(s, a, run); }
  }

  /** While a dream has checked the memory and not written it, only edits change that agent's memory. */
  lemma OnlyEditsIntervene(s: State, a: Action, run: nat)
    requires Inv(s) && At(s, run, Checked) && WritesNot(a, run)
    ensures At(Step(s, a), run, Checked) && Step(s, a).runs[run] == s.runs[run]
    ensures Memory(Step(s, a).store, s.runs[run].agent) == LastEdit([a], s.runs[run].agent, Memory(s.store, s.runs[run].agent))
  {
    OthersStandBy(s, a, run);
    assert [a][1..] == [];
    if a.Write? && At(s, a.run, Checked) { assert s.runs[a.run].agent != s.runs[run].agent; }
  }

  lemma {:induction false} MemoryUntilWrite(s: State, mid: seq<Action>, run: nat)
    requires Inv(s) && At(s, run, Checked) && forall a :: a in mid ==> WritesNot(a, run)
    ensures var t, agent := After(s, mid), s.runs[run].agent;
      && At(t, run, Checked) && t.runs[run] == s.runs[run]
      && Memory(t.store, agent) == LastEdit(mid, agent, Memory(s.store, agent))
    decreases |mid|
  {
    if mid != [] {
      assert mid[0] in mid && forall a :: a in mid[1..] ==> a in mid;
      OnlyEditsIntervene(s, mid[0], run);
      StepInv(s, mid[0]);
      assert [mid[0]][1..] == [];
      MemoryUntilWrite(Step(s, mid[0]), mid[1..], run);
    }
  }

  /**
   * A dream's write replaces exactly what the dream had read if and only if the
   * last edit of that agent's memory since the check, if there was one, put back
   * the text that was read. The check and the write are separate steps, so any
   * other edit between them is overwritten.
   */
  lemma {:induction false} WriteReplacesWhatWasRead(s: State, run: nat, mid: seq<Action>)
    requires Inv(s) && At(s, run, Distilled) && At(Step(s, Check(run)), run, Checked)
    requires forall a :: a in mid ==> WritesNot(a, run)
    ensures var r := s.runs[run];
      var t := After(Step(s, Check(run)), mid);
      var u := Step(t, Write(run, true));
      && u.log == t.log + [MemoryWritten(run, r.agent, r.selected, r.read, LastEdit(mid, r.agent, r.read), EnsureTrailingNewline(r.text))]
      && (Memory(t.store, r.agent) == r.read <==> LastEdit(mid, r.agent, r.read) == r.read)
      && Memory(u.store, r.agent) == EnsureTrailingNewline(r.text)
  {
    StepInv(s, Check(run));
    MemoryUntilWrite(Step(s, Check(run)), mid, run);
  }

  /** No user edits an agent's memory while a dream of that agent is between its check and its write. */
  predicate EditsWait(s: State, actions: seq<Action>)
    decreases |actions|
  {
    actions != [] ==>
      && (actions[0].Edit? ==> forall n :: n in s.runs && s.runs[n].phase == Checked ==> s.runs[n].agent != actions[0].agent)
      && EditsWait(Step(s, actions[0]), actions[1..])
  }

  /** Checked dreams still see what they read, and so did every write so far. */
  ghost predicate Unlost(s: State) {
    && (forall n :: n in s.runs && s.runs[n].phase == Checked ==> Memory(s.store, s.runs[n].agent) == s.runs[n].read)
    && (forall i :: 0 <= i < |s.log| && s.log[i].MemoryWritten? ==> s.log[i].before == s.log[i].read)
  }

  lemma UnlostWrite(s: State, run: nat)
    requires Inv(s) && Unlost(s) && At(s, run, Checked)
    ensures Unlost(DoWrite(s, run, true))
  {
    var t := DoWrite(s, run, true);
    forall n | n in t.runs && t.runs[n].phase == Checked ensures Memory(t.store, t.runs[n].agent) == t.runs[n].read {
      assert n != run && s.runs[n].agent != s.runs[run].agent;
    }
  }

  lemma UnlostPreparing(s: State, a: Action)
    requires Unlost(s) && Prepares(a)
    ensures Unlost(Step(s, a))
  {
  }

  lemma {:induction false} UnlostStep(s: State, a: Action)
    requires Inv(s) && Unlost(s) && EditsWait(s, [a])
    ensures Unlost(Step(s, a))
  {
    if Prepares(a) {
      UnlostPreparing(s, a);
    } else if a.Write? && At(s, a.run, Checked) && a.works {
      UnlostWrite(s, a.run);
    }
  }

  /** Under that discipline no edit is ever overwritten unread. */
  lemma {:induction false} NoEditIsLost(s: State, actions: seq<Action>)
    requires Inv(s) && Unlost(s) && EditsWait(s, actions)
    ensures Unlost(After(s, actions))
    decreases |actions|
  {
    if actions != [] {
      assert [actions[0]][1..] == [];
      StepInv(s, actions[0]);
      UnlostStep(s, actions[0]);
      NoEditIsLost(Step(s, actions[0]), actions[1..]);
    }
  }

  // ---------------------------------------------------- nothing becomes blank

  /** A newline at the end does not change whether a text is blank. */
  lemma NewlineKeepsBlank(text: string)
    ensures Blank(EnsureTrailingNewline(text)) <==> Blank(text)
  {
    BlankIsAllLead(text);
    BlankIsAllLead(text + "\n");
    LeadOfConcat(text, "\n");
  }

  predicate KeepsText(before: string, after: string) {
    Blank(before) || !Blank(after)
  }

  /** What a dream is about to write, and what every dream has written, is not blank unless what it read was. */
  ghost predicate NoneBlanked(s: State) {
    && (forall n :: n in s.runs && (s.runs[n].phase == Distilled || s.runs[n].phase == Checked) ==>
          KeepsText(s.runs[n].read, s.runs[n].text))
    && (forall i :: 0 <= i < |s.log| && s.log[i].MemoryWritten? ==> KeepsText(s.log[i].read, s.log[i].after))
  }

  lemma PreparingBlanksNone(s: State, a: Action)
    requires NoneBlanked(s) && Prepares(a)
    ensures NoneBlanked(Step(s, a))
  {
  }

  lemma WriteBlanksNone(s: State, run: nat, works: bool)
    requires NoneBlanked(s) && At(s, run, Checked)
    ensures NoneBlanked(DoWrite(s, run, works))
  {
    NewlineKeepsBlank(s.runs[run].text);
  }

  lemma StepBlanksNone(s: State, a: Action)
    requires NoneBlanked(s)
    ensures NoneBlanked(Step(s, a))
  {
    if Prepares(a) {
      PreparingBlanksNone(s, a);
    } else if a.Write? {
      if At(s, a.run, Checked) { WriteBlanksNone(s, a.run, a.works); }
    }
  }

  /** In every run, no dream replaces a memory it read as non-blank by a blank one. */
  lemma {:induction false} NoMemoryIsErased(s: State, actions: seq<Action>)
    requires NoneBlanked(s)
    ensures NoneBlanked(After(s, actions))
    decreases |actions|
  {
    if actions != [] {
      StepBlanksNone(s, actions[0]);
      NoMemoryIsErased(Step(s, actions[0]), actions[1..]);
    }
  }

  // ---------------------------------------------------------------- backlogs

  /** Session ids are listed once. */
  predicate OrderOk(s: Store) {
    Distinct(s.order) && forall id :: id in s.order ==> id in s.owner
  }

  lemma {:induction false} EveryOrderIsOk(s: State, actions: seq<Action>)
    requires OrderOk(s.store)
    ensures OrderOk(After(s, actions).store)
    decreases |actions|
  {
    if actions != [] {
      EveryOrderIsOk(Step(s, actions[0]), actions[1..]);
    }
  }

  /** Which of a dream's writes, and of its journal's, succeed. */
  datatype Works = Works(write: bool, mark: bool, finish: bool, report: bool)

  const ALL_WORK: Works := Works(true, true, true, true)

  /** One whole dream of an agent that nothing disturbs; live sessions have a turn under way. */
  function Whole(run: nat, agent: string, live: set<int>, reply: Option<string>, w: Works): seq<Action> {
    [Begin(agent), List(run, live), Gather(run), Distil(run, reply), Check(run), Write(run, w.write), Mark(run, w.mark),
     Finish(run, w.finish), Report(run, w.report)]
  }

  lemma {:induction false} NothingLive(ids: seq<int>)
    ensures Quiet(ids, {}) == ids
  {
    if ids != [] {
      NothingLive(ids[1..]);
      assert ids == [ids[0]] + ids[1..];
    }
  }

  /** A dream folds some sessions into a memory text: the memory is written first, then the sessions are marked. */
  function Dreamed(s: Store, agent: string, ids: seq<int>, text: string, w: Works): Store {
    if !w.write then s
    else
      var t := s.(memory := s.memory[agent := EnsureTrailingNewline(text)]);
      if !w.mark then t else t.(dreamed := s.dreamed + set id | id in ids)
  }

  predicate Refused(s: Store, agent: string, reply: Option<string>) {
    reply.None? || (!Blank(Memory(s, agent)) && Blank(reply.value))
  }

  /** The store after a dream of its own: the oldest pending quiet sessions, if a usable reply came. */
  function DreamtOnce(s: Store, agent: string, live: set<int>, reply: Option<string>, w: Works): Store {
    var ids := Quiet(Undreamed(s, agent), live);
    if ids == [] || Refused(s, agent, reply) then s else Dreamed(s, agent, FirstSessions(ids), reply.value, w)
  }

  lemma {:induction false} Unroll(s: State, actions: seq<Action>)
    requires actions != []
    ensures After(s, actions) == After(Step(s, actions[0]), actions[1..])
  {
  }

  lemma {:induction false} NineSteps(s: State, a: seq<Action>)
    requires |a| == 9
    ensures After(s, a) ==
      Step(Step(Step(Step(Step(Step(Step(Step(Step(s, a[0]), a[1]), a[2]), a[3]), a[4]), a[5]), a[6]), a[7]), a[8])
  {
    FourSteps(s, a);
    var t := Step(Step(Step(Step(s, a[0]), a[1]), a[2]), a[3]);
    FourSteps(t, a[4..]);
    Unroll(Step(Step(Step(Step(t, a[4]), a[5]), a[6]), a[7]), a[4..][4..]);
  }

  lemma {:induction false} FourSteps(s: State, a: seq<Action>)
    requires |a| >= 4
    ensures After(s, a) == After(Step(Step(Step(Step(s, a[0]), a[1]), a[2]), a[3]), a[4..])
  {
    Unroll(s, a);
    Unroll(Step(s, a[0]), a[1..]);
    Unroll(Step(Step(s, a[0]), a[1]), a[2..]);
    Unroll(Step(Step(Step(s, a[0]), a[1]), a[2]), a[3..]);
    assert a[1..][1..] == a[2..] && a[2..][1..] == a[3..] && a[3..][1..] == a[4..];
  }

  lemma {:induction false} WholeUnrolls(s: State, run: nat, agent: string, live: set<int>, reply: Option<string>, w: Works)
    ensures After(s, Whole(run, agent, live, reply, w)) ==
      SecondHalfOf(Step(Step(Step(s, Begin(agent)), List(run, live)), Gather(run)), run, reply, w)
  {
    NineSteps(s, Whole(run, agent, live, reply, w));
  }

  /** What follows once the sessions are gathered. */
  function SecondHalfOf(s: State, run: nat, reply: Option<string>, w: Works): State {
    Applied(Step(Step(s, Distil(run, reply)), Check(run)), run, w)
  }

  function Applied(s: State, run: nat, w: Works): State {
    Step(Step(Step(Step(s, Write(run, w.write)), Mark(run, w.mark)), Finish(run, w.finish)), Report(run, w.report))
  }

  lemma {:induction false} FirstHalf(s: State, agent: string, live: set<int>)
    requires s.next !in s.runs && agent !in s.dreaming && Quiet(Undreamed(s.store, agent), live) != []
    ensures var n, ids := s.next, Quiet(Undreamed(s.store, agent), live);
      Step(Step(Step(s, Begin(agent)), List(n, live)), Gather(n)) ==
        State(s.store, s.dreaming + {agent},
              s.runs[n := Run(agent, Gathered, ids, FirstSessions(ids), Memory(s.store, agent), "")], n + 1, s.log)
  {
    var n, ids := s.next, Quiet(Undreamed(s.store, agent), live);
    var s1 := Step(s, Begin(agent));
    var s2 := Step(s1, List(n, live));
    assert s2 == State(s.store, s.dreaming + {agent}, s.runs[n := Run(agent, Listed, ids, [], "", "")], n + 1, s.log);
  }

  lemma ApplyingEnds(s: State, run: nat, w: Works)
    requires At(s, run, Checked)
    ensures var r, t := s.runs[run], Applied(s, run, w);
      && t.runs == s.runs - {run} && t.dreaming == s.dreaming - {r.agent} && t.next == s.next
      && t.store == Dreamed(s.store, r.agent, r.selected, r.text, w)
  {
    var r := s.runs[run];
    var s1 := Step(s, Write(run, w.write));
    var s2 := Step(s1, Mark(run, w.mark));
    var s3 := Step(s2, Finish(run, w.finish));
    if w.write {
      assert s1.runs == s.runs[run := r.(phase := Written)];
      if w.mark {
        assert s2.runs == s.runs[run := r.(phase := Marked)];
        assert End(s2, run).runs == s.runs - {run} && s2.dreaming == s.dreaming;
        if w.finish {
          assert s3.runs == s.runs[run := r.(phase := Finished)];
          assert End(s3, run).runs == s.runs - {run};
        }
      } else {
        assert s2.runs == s.runs - {run};
      }
    }
  }

  lemma SecondHalf(s: State, run: nat, text: string, w: Works)
    requires At(s, run, Gathered) && s.runs[run].read == Memory(s.store, s.runs[run].agent)
    requires !Refused(s.store, s.runs[run].agent, Some(text))
    ensures var r, t := s.runs[run], SecondHalfOf(s, run, Some(text), w);
      && t.runs == s.runs - {run} && t.dreaming == s.dreaming - {r.agent} && t.next == s.next
      && t.store == Dreamed(s.store, r.agent, r.selected, text, w)
  {
    var r := s.runs[run];
    var s1 := Step(Step(s, Distil(run, Some(text))), Check(run));
    assert s1.runs == s.runs[run := r.(phase := Checked, text := text)];
    assert s1.runs - {run} == s.runs - {run};
    ApplyingEnds(s1, run, w);
  }

  /**
   * A dream that nothing disturbs, step by step, is one dream: whatever fails, and
   * wherever, it ends, and the store holds what was written before that.
   */
  lemma {:induction false} WholeDream(s: State, agent: string, live: set<int>, reply: Option<string>, w: Works)
    requires s.next !in s.runs && agent !in s.dreaming
    ensures var t := After(s, Whole(s.next, agent, live, reply, w));
      && t.runs == s.runs && t.dreaming == s.dreaming && t.next == s.next + 1
      && t.store == DreamtOnce(s.store, agent, live, reply, w)
  {
    var n := s.next;
    WholeUnrolls(s, n, agent, live, reply, w);
    if Quiet(Undreamed(s.store, agent), live) == [] {
      IdleDream(s, agent, live, reply, w);
    } else {
      FirstHalf(s, agent, live);
      BusyDream(s, Step(Step(Step(s, Begin(agent)), List(n, live)), Gather(n)), agent, reply, w);
    }
  }

  lemma BusyDream(s: State, s3: State, agent: string, reply: Option<string>, w: Works)
    requires var n := s.next;
      n !in s.runs && agent !in s.dreaming && At(s3, n, Gathered) && s3.runs[n].agent == agent && s3.store == s.store
    requires s3.runs == s.runs[s.next := s3.runs[s.next]] && s3.dreaming == s.dreaming + {agent} && s3.next == s.next + 1
    requires s3.runs[s.next].read == Memory(s.store, agent)
    ensures var n := s.next;
      var t := SecondHalfOf(s3, n, reply, w);
      && t.runs == s.runs && t.dreaming == s.dreaming && t.next == s3.next
      && t.store == if Refused(s.store, agent, reply) then s.store
                    else Dreamed(s.store, agent, s3.runs[n].selected, reply.value, w)
  {
    var n := s.next;
    assert s3.runs - {n} == s.runs && s3.dreaming - {agent} == s.dreaming;
    if Refused(s.store, agent, reply) {
      assert Step(s3, Distil(n, reply)) == s.(next := s3.next, log := s3.log);
    } else {
      SecondHalf(s3, n, reply.value, w);
    }
  }

  lemma {:induction false} IdleDream(s: State, agent: string, live: set<int>, reply: Option<string>, w: Works)
    requires s.next !in s.runs && agent !in s.dreaming && Quiet(Undreamed(s.store, agent), live) == []
    ensures After(s, Whole(s.next, agent, live, reply, w)) == s.(next := s.next + 1)
  {
    var n := s.next;
    WholeUnrolls(s, n, agent, live, reply, w);
    var s1 := Step(s, Begin(agent));
    assert s1.runs - {n} == s.runs && s1.dreaming - {agent} == s.dreaming;
    var s2 := Step(s1, List(n, live));
    assert s2 == s.(next := n + 1);
    GoneIsGone(s2, n, reply, w);
  }

  lemma GoneIsGone(s: State, run: nat, reply: Option<string>, w: Works)
    requires run !in s.runs
    ensures Step(s, Gather(run)) == s && SecondHalfOf(s, run, reply, w) == s
  {
  }

  /** Marking the first k pending sessions takes exactly those off the list. */
  lemma {:induction false} PickDrop(s: Store, t: Store, agent: string, ids: seq<int>, k: nat)
    requires Distinct(ids) && s.owner == t.owner && s.exchanged == t.exchanged && k <= |Pick(s, agent, ids)|
    requires forall id :: id in ids ==> (id in t.dreamed <==> id in s.dreamed || id in Pick(s, agent, ids)[..k])
    ensures Pick(t, agent, ids) == Pick(s, agent, ids)[k..]
  {
    if ids != [] {
      var first, rest := ids[0], ids[1..];
      assert forall j :: 0 <= j < |rest| ==> rest[j] == ids[j + 1];
      assert first !in rest;
      var picked := Pick(s, agent, rest);
      if Pending(s, agent, first) {
        assert Pick(s, agent, ids) == [first] + picked;
        if k == 0 {
          PickDrop(s, t, agent, rest, 0);
        } else {
          assert Pick(s, agent, ids)[..k] == [first] + picked[..k - 1];
          PickDrop(s, t, agent, rest, k - 1);
        }
      } else {
        PickDrop(s, t, agent, rest, k);
      }
    }
  }

  function Min(a: nat, b: nat): nat {
    if a < b then a else b
  }

  /** Picking looks at nothing but which sessions are pending. */
  lemma {:induction false} PickSame(s: Store, t: Store, agent: string, ids: seq<int>)
    requires forall id :: id in ids ==> (Pending(s, agent, id) <==> Pending(t, agent, id))
    ensures Pick(s, agent, ids) == Pick(t, agent, ids)
  {
    if ids != [] {
      assert ids[0] in ids;
      PickSame(s, t, agent, ids[1..]);
    }
  }

  /** No session starts or gets its first reply, and no turn is live when a dream lists its sessions. */
  predicate NothingNew(a: Action) {
    !a.NewSession? && !a.Exchange? && (a.List? ==> a.live == {})
  }

  /** Dreams of the agent that have not marked their sessions yet are about the oldest ones still pending. */
  ghost predicate Aimed(s: State, agent: string) {
    forall n :: n in s.runs && s.runs[n].agent == agent && !s.runs[n].phase.Acquired? && !HasMarked(s.runs[n].phase) ==>
      && s.runs[n].listed == Undreamed(s.store, agent) != []
      && (!s.runs[n].phase.Listed? ==> s.runs[n].selected == FirstSessions(Undreamed(s.store, agent)))
  }

  /** How many dreams of the agent have marked their sessions. */
  function Marks(log: seq<Note>, agent: string): nat {
    if log == [] then 0
    else
      Marks(log[..|log| - 1], agent)
      + if log[|log| - 1].SessionsMarked? && log[|log| - 1].agent == agent then 1 else 0
  }

  /** A step that marks nothing of the agent's leaves its backlog, and its dreams' aim, alone. */
  lemma AsideKeepsAim(s: State, t: State, agent: string)
    requires Aimed(s, agent) && s.store.order == t.store.order
    requires forall id :: id in s.store.order ==> (Pending(s.store, agent, id) <==> Pending(t.store, agent, id))
    requires forall n :: n in t.runs && t.runs[n].agent == agent ==> n in s.runs && t.runs[n] == s.runs[n]
    ensures Aimed(t, agent) && Undreamed(t.store, agent) == Undreamed(s.store, agent)
  {
    PickSame(s.store, t.store, agent, s.store.order);
  }

  /** A dream moves on within its own fields. */
  lemma ProceedKeepsAim(s: State, run: nat, r: Run, agent: string)
    requires Aimed(s, agent) && run in s.runs && r.agent == s.runs[run].agent
    requires r.agent == agent && !r.phase.Acquired? ==> r.listed == Undreamed(s.store, agent) != []
    requires r.agent == agent && !r.phase.Acquired? && !r.phase.Listed? ==> r.selected == FirstSessions(Undreamed(s.store, agent))
    ensures Aimed(Proceed(s, run, r), agent)
  {
  }

  lemma EndKeepsAim(s: State, run: nat, agent: string)
    requires Aimed(s, agent) && run in s.runs
    ensures Aimed(End(s, run), agent)
  {
    AsideKeepsAim(s, End(s, run), agent);
  }

  lemma BeginKeepsAim(s: State, who: string, agent: string)
    requires Aimed(s, agent)
    ensures Aimed(DoBegin(s, who), agent)
  {
  }

  lemma WriteKeepsAim(s: State, run: nat, agent: string)
    requires Aimed(s, agent) && At(s, run, Checked)
    ensures var t := DoWrite(s, run, true);
      Aimed(t, agent) && Undreamed(t.store, agent) == Undreamed(s.store, agent)
  {
    var t := DoWrite(s, run, true);
    PickSame(s.store, t.store, agent, s.store.order);
  }

  /** A dream of the agent that marks takes the oldest pending sessions off the list. */
  lemma MarkDrains(s: State, run: nat)
    requires Inv(s) && OrderOk(s.store) && At(s, run, Written) && Aimed(s, s.runs[run].agent)
    ensures var t, agent := DoMark(s, run, true), s.runs[run].agent;
      && Aimed(t, agent)
      && Undreamed(s.store, agent) != []
      && Undreamed(t.store, agent) == Undreamed(s.store, agent)[Min(MAX_SESSIONS, |Undreamed(s.store, agent)|)..]
  {
    var t, agent := DoMark(s, run, true), s.runs[run].agent;
    var ids := Undreamed(s.store, agent);
    assert FirstSessions(ids) == ids[..Min(MAX_SESSIONS, |ids|)];
    PickDrop(s.store, t.store, agent, s.store.order, Min(MAX_SESSIONS, |ids|));
    forall n | n in t.runs ensures t.runs[n].agent != agent || n == run {
      assert n in s.runs;
    }
  }

  /** A dream of another agent marks none of this one's sessions. */
  lemma OthersMarkKeepsAim(s: State, run: nat, agent: string)
    requires Inv(s) && At(s, run, Written) && Aimed(s, agent) && s.runs[run].agent != agent
    ensures var t := DoMark(s, run, true);
      Aimed(t, agent) && Undreamed(t.store, agent) == Undreamed(s.store, agent)
  {
    assert RunOk(run, s.runs[run], s.store, s.log);
    AsideKeepsAim(s, DoMark(s, run, true), agent);
  }

  /** A state from which the agent's backlog can be followed. */
  ghost predicate Ready(s: State, agent: string) {
    Inv(s) && OrderOk(s.store) && Aimed(s, agent)
  }

  /** At most one dream of the agent marked, and if so, the oldest pending sessions left the list. */
  predicate DrainedBy(s: State, t: State, agent: string) {
    DrainedAtMostOnce(Undreamed(s.store, agent), Undreamed(t.store, agent), Marks(t.log, agent) - Marks(s.log, agent))
  }

  predicate DrainedAtMostOnce(ids: seq<int>, left: seq<int>, marked: int) {
    if marked == 0 then left == ids else marked == 1 && ids != [] && left == ids[Min(MAX_SESSIONS, |ids|)..]
  }

  lemma StepStaysReady(s: State, a: Action, agent: string)
    requires Ready(s, agent) && NothingNew(a)
    ensures Ready(Step(s, a), agent) && DrainedBy(s, Step(s, a), agent)
  {
    StepInv(s, a);
    StepDrains(s, a, agent);
  }

  lemma PreparingDrains(s: State, a: Action, agent: string)
    requires Ready(s, agent) && NothingNew(a) && Prepares(a)
    ensures Aimed(Step(s, a), agent) && DrainedBy(s, Step(s, a), agent)
  {
    match a
    case Begin(who) => BeginKeepsAim(s, who, agent);
    case ReadFails(run) => if Reading(s, run) { EndKeepsAim(s, run, agent); }
    case List(run, live) => if At(s, run, Acquired) { ListKeepsAim(s, run, agent); }
    case Gather(run) => if At(s, run, Listed) { GatherKeepsAim(s, run, agent); }
    case Distil(run, reply) => if At(s, run, Gathered) { EndKeepsAim(s, run, agent); }
    case Check(run) => if At(s, run, Distilled) { EndKeepsAim(s, run, agent); }
  }

  lemma StepDrains(s: State, a: Action, agent: string)
    requires Ready(s, agent) && NothingNew(a)
    ensures Aimed(Step(s, a), agent) && DrainedBy(s, Step(s, a), agent)
  {
    if Prepares(a) {
      PreparingDrains(s, a, agent);
    } else {
      match a
      case Write(run, works) => if At(s, run, Checked) { WriteStepDrains(s, run, works, agent); }
      case Mark(run, works) => if At(s, run, Written) { MarkStepDrains(s, run, works, agent); }
      case Finish(run, works) => if At(s, run, Marked) { EndKeepsAim(s, run, agent); }
      case Report(run, works) => if At(s, run, Finished) { EndKeepsAim(s, run, agent); }
      case Edit(who, text) => AsideKeepsAim(s, Step(s, a), agent);
    }
  }

  lemma ListKeepsAim(s: State, run: nat, agent: string)
    requires Aimed(s, agent) && At(s, run, Acquired)
    ensures Aimed(DoList(s, run, {}), agent)
  {
    NothingLive(Undreamed(s.store, s.runs[run].agent));
    EndKeepsAim(s, run, agent);
  }

  lemma GatherKeepsAim(s: State, run: nat, agent: string)
    requires Aimed(s, agent) && At(s, run, Listed)
    ensures Aimed(DoGather(s, run), agent)
  {
    var r := s.runs[run];
    ProceedKeepsAim(s, run, r.(phase := Gathered, selected := FirstSessions(r.listed), read := Memory(s.store, r.agent)), agent);
  }

  lemma {:induction false} WriteStepDrains(s: State, run: nat, works: bool, agent: string)
    requires Inv(s) && Aimed(s, agent) && At(s, run, Checked)
    ensures var t := DoWrite(s, run, works);
      Aimed(t, agent) && Undreamed(t.store, agent) == Undreamed(s.store, agent) && Marks(t.log, agent) == Marks(s.log, agent)
  {
    if works {
      WriteKeepsAim(s, run, agent);
    } else {
      EndKeepsAim(s, run, agent);
    }
  }

  lemma {:induction false} MarkStepDrains(s: State, run: nat, works: bool, agent: string)
    requires Inv(s) && OrderOk(s.store) && Aimed(s, agent) && At(s, run, Written)
    ensures var t, ids := DoMark(s, run, works), Undreamed(s.store, agent);
      && Aimed(t, agent)
      && Marks(t.log, agent) == Marks(s.log, agent) + (if works && s.runs[run].agent == agent then 1 else 0)
      && (if works && s.runs[run].agent == agent
          then ids != [] && Undreamed(t.store, agent) == ids[Min(MAX_SESSIONS, |ids|)..]
          else Undreamed(t.store, agent) == ids)
  {
    if works {
      if s.runs[run].agent == agent { MarkDrains(s, run); } else { OthersMarkKeepsAim(s, run, agent); }
    } else {
      EndKeepsAim(s, run, agent);
    }
  }

  /** What k marking dreams leave of a backlog, each of them finding something to mark. */
  predicate Drained(ids: seq<int>, left: seq<int>, k: nat) {
    left == ids[Min(MAX_SESSIONS * k, |ids|)..] && (k > 0 ==> MAX_SESSIONS * (k - 1) < |ids|)
  }

  lemma DrainedOnce(ids: seq<int>, left: seq<int>, k: nat)
    requires ids != [] && Drained(ids[Min(MAX_SESSIONS, |ids|)..], left, k)
    ensures Drained(ids, left, k + 1)
  {
    var first := Min(MAX_SESSIONS, |ids|);
    var rest := Min(MAX_SESSIONS * k, |ids| - first);
    assert ids[first..][rest..] == ids[first + rest..];
  }

  lemma DrainedThen(ids: seq<int>, mid: seq<int>, left: seq<int>, first: int, rest: nat)
    requires DrainedAtMostOnce(ids, mid, first)
    requires Drained(mid, left, rest)
    ensures Drained(ids, left, first + rest)
  {
    if first == 1 { DrainedOnce(ids, left, rest); }
  }

  /** The same between two counts of marking dreams. */
  predicate DrainedFrom(ids: seq<int>, left: seq<int>, before: nat, after: nat) {
    before <= after && Drained(ids, left, after - before)
  }

  lemma DrainedFromThen(ids: seq<int>, mid: seq<int>, left: seq<int>, start: nat, before: nat, after: nat)
    requires DrainedAtMostOnce(ids, mid, before - start) && DrainedFrom(mid, left, before, after)
    ensures DrainedFrom(ids, left, start, after)
  {
    DrainedThen(ids, mid, left, before - start, after - before);
    assert (before - start) + (after - before) == after - start;
  }

  predicate DrainedOver(s: State, t: State, agent: string) {
    DrainedFrom(Undreamed(s.store, agent), Undreamed(t.store, agent), Marks(s.log, agent), Marks(t.log, agent))
  }

  lemma DrainsJoin(s: State, next: State, t: State, agent: string)
    requires DrainedBy(s, next, agent) && DrainedOver(next, t, agent)
    ensures DrainedOver(s, t, agent)
  {
    DrainedFromThen(Undreamed(s.store, agent), Undreamed(next.store, agent), Undreamed(t.store, agent),
      Marks(s.log, agent), Marks(next.log, agent), Marks(t.log, agent));
  }

  /**
   * Over any run in which nothing new comes in, whatever other agents dream,
   * users edit and dreams fail meanwhile: k dreams of the agent that marked their
   * sessions leave its backlog without its oldest 30k, and no more dreams can
   * mark than the backlog takes.
   */
  lemma {:induction false} BacklogAfter(s: State, actions: seq<Action>, agent: string)
    requires Ready(s, agent) && forall i :: 0 <= i < |actions| ==> NothingNew(actions[i])
    ensures DrainedOver(s, After(s, actions), agent)
    decreases |actions|
  {
    if actions == [] {
      assert DrainedOver(s, s, agent);
    } else {
      assert forall i :: 0 <= i < |actions| - 1 ==> actions[1..][i] == actions[i + 1];
      StepStaysReady(s, actions[0], agent);
      BacklogAfter(Step(s, actions[0]), actions[1..], agent);
      DrainsJoin(s, Step(s, actions[0]), After(s, actions), agent);
    }
  }

  /** A backlog of n sessions is gone exactly when ceil(n / 30) dreams have marked theirs, and it never takes more. */
  lemma {:induction false} BacklogDrains(s: State, actions: seq<Action>, agent: string)
    requires Ready(s, agent) && forall i :: 0 <= i < |actions| ==> NothingNew(actions[i])
    ensures var t, needed := After(s, actions), (|Undreamed(s.store, agent)| + MAX_SESSIONS - 1) / MAX_SESSIONS;
      var k := Marks(t.log, agent) - Marks(s.log, agent);
      k <= needed && (Undreamed(t.store, agent) == [] <==> k == needed)
  {
    BacklogAfter(s, actions, agent);
  }

  // ---------------------------------------------------------------- failures

  predicate WroteMemory(log: seq<Note>, run: nat) {
    exists i :: 0 <= i < |log| && log[i].MemoryWritten? && log[i].run == run
  }

  predicate MarkedSessions(log: seq<Note>, run: nat) {
    exists i :: 0 <= i < |log| && log[i].SessionsMarked? && log[i].run == run
  }

  /** A dream's phase tells what it has done so far, and nobody has done anything under a number not given out yet. */
  ghost predicate LogShows(s: State) {
    && (forall n :: n in s.runs ==>
          && n < s.next
          && (WroteMemory(s.log, n) <==> HasWritten(s.runs[n].phase))
          && (MarkedSessions(s.log, n) <==> HasMarked(s.runs[n].phase)))
    && (forall n: nat :: WroteMemory(s.log, n) || MarkedSessions(s.log, n) ==> n < s.next)
  }

  lemma ShownNow(log: seq<Note>, note: Note)
    ensures forall n :: WroteMemory(log + [note], n) <==> WroteMemory(log, n) || (note.MemoryWritten? && note.run == n)
    ensures forall n :: MarkedSessions(log + [note], n) <==> MarkedSessions(log, n) || (note.SessionsMarked? && note.run == n)
  {
    var now := log + [note];
    assert now[|log|] == note && forall i :: 0 <= i < |log| ==> now[i] == log[i];
    forall n ensures WroteMemory(now, n) <==> WroteMemory(log, n) || (note.MemoryWritten? && note.run == n) {
      if i :| 0 <= i < |log| && log[i].MemoryWritten? && log[i].run == n { assert now[i].MemoryWritten?; }
    }
    forall n ensures MarkedSessions(now, n) <==> MarkedSessions(log, n) || (note.SessionsMarked? && note.run == n) {
      if i :| 0 <= i < |log| && log[i].SessionsMarked? && log[i].run == n { assert now[i].SessionsMarked?; }
    }
  }

  lemma MoveShows(s: State, run: nat, r: Run)
    requires LogShows(s) && run in s.runs
    ensures LogShows(End(s, run))
    ensures HasWritten(r.phase) == HasWritten(s.runs[run].phase) && HasMarked(r.phase) == HasMarked(s.runs[run].phase) ==>
      LogShows(Proceed(s, run, r))
  {
  }

  lemma ListShows(s: State, run: nat, live: set<int>)
    requires LogShows(s) && At(s, run, Acquired)
    ensures LogShows(DoList(s, run, live))
  {
    MoveShows(s, run, s.runs[run].(phase := Listed, listed := Quiet(Undreamed(s.store, s.runs[run].agent), live)));
  }

  lemma GatherShows(s: State, run: nat)
    requires LogShows(s) && At(s, run, Listed)
    ensures LogShows(DoGather(s, run))
  {
    var r := s.runs[run];
    MoveShows(s, run, r.(phase := Gathered, selected := FirstSessions(r.listed), read := Memory(s.store, r.agent)));
  }

  lemma PreparingShows(s: State, a: Action)
    requires LogShows(s) && Prepares(a)
    ensures LogShows(Step(s, a))
  {
    match a
    case Begin(agent) =>
    case ReadFails(run) => if Reading(s, run) { MoveShows(s, run, s.runs[run]); }
    case List(run, live) => if At(s, run, Acquired) { ListShows(s, run, live); }
    case Gather(run) => if At(s, run, Listed) { GatherShows(s, run); }
    case Distil(run, reply) =>
      if At(s, run, Gathered) {
        MoveShows(s, run, s.runs[run].(phase := Distilled, text := if reply.Some? then reply.value else ""));
      }
    case Check(run) => if At(s, run, Distilled) { MoveShows(s, run, s.runs[run].(phase := Checked)); }
  }

  lemma StepShows(s: State, a: Action)
    requires LogShows(s)
    ensures LogShows(Step(s, a))
  {
    if Prepares(a) {
      PreparingShows(s, a);
    } else {
      match a
      case Write(run, works) => if At(s, run, Checked) { WriteShows(s, run, works); }
      case Mark(run, works) => if At(s, run, Written) { MarkShows(s, run, works); }
      case Finish(run, works) => if At(s, run, Marked) { MoveShows(s, run, s.runs[run].(phase := Finished)); }
      case Report(run, works) => if At(s, run, Finished) { MoveShows(s, run, s.runs[run]); }
      case _ =>
    }
  }

  lemma WriteShows(s: State, run: nat, works: bool)
    requires LogShows(s) && At(s, run, Checked)
    ensures LogShows(DoWrite(s, run, works))
  {
    MoveShows(s, run, s.runs[run]);
    if works { ShownNow(s.log, DoWrite(s, run, works).log[|s.log|]); }
  }

  lemma MarkShows(s: State, run: nat, works: bool)
    requires LogShows(s) && At(s, run, Written)
    ensures LogShows(DoMark(s, run, works))
  {
    MoveShows(s, run, s.runs[run]);
    if works { ShownNow(s.log, SessionsMarked(run, s.runs[run].agent, s.runs[run].selected)); }
  }

  lemma {:induction false} EveryRunShows(s: State, actions: seq<Action>)
    requires LogShows(s)
    ensures LogShows(After(s, actions))
    decreases |actions|
  {
    if actions != [] {
      StepShows(s, actions[0]);
      EveryRunShows(Step(s, actions[0]), actions[1..]);
    }
  }

  /** The step ends the dream with an error: it has not reported its success, nor found nothing to dream about. */
  predicate Fails(s: State, a: Action, run: nat) {
    run in s.runs && run !in Step(s, a).runs && a != Report(run, true) && !a.List?
  }

  /**
   * A dream that fails has left the memory and the sessions untouched if and
   * only if it failed before its write succeeded. After that the memory is
   * already the new one, and the sessions are already marked if and only if it
   * was the journal that failed: closing the dream's row, or reading it back.
   */
  lemma {:induction false} FailuresTouchNothingExactly(actions: seq<Action>, a: Action, run: nat)
    requires Fails(After(START, actions), a, run)
    ensures var s, t := After(START, actions), Step(After(START, actions), a);
      && t.store == s.store && t.log == s.log
      && (WroteMemory(t.log, run) <==> a == Mark(run, false) || a == Finish(run, false) || a == Report(run, false))
      && (MarkedSessions(t.log, run) <==> a == Finish(run, false) || a == Report(run, false))
  {
    StartIsSound("");
    EveryRunShows(START, actions);
  }

  /** Memory files change only by edits and by dreams' writes, sessions are marked only by dreams, and all of it is logged. */
  lemma StoreChangesAreLogged(s: State, a: Action, agent: string, id: int)
    ensures var t := Step(s, a);
      && (Memory(t.store, agent) != Memory(s.store, agent) ==>
            a == Edit(agent, Memory(t.store, agent))
            || (a.Write? && t.log == s.log + [t.log[|s.log|]] && WroteMemory([t.log[|s.log|]], a.run)))
      && (id in t.store.dreamed && id !in s.store.dreamed ==>
            a.Mark? && t.log == s.log + [t.log[|s.log|]] && MarkedSessions([t.log[|s.log|]], a.run))
  {
    var t := Step(s, a);
    if |t.log| > |s.log| { assert t.log == s.log + [t.log[|s.log|]] && [t.log[|s.log|]][0] == t.log[|s.log|]; }
  }

  // ------------------------------------------------------------ from the start

  /** What a fresh daemon starts from meets every condition above. */
  lemma StartIsSound(agent: string)
    ensures Inv(START) && OrderOk(START.store) && Unlost(START) && Aimed(START, agent) && LogShows(START) && NoneBlanked(START)
  {
  }

  lemma {:induction false} ReachableDreams(actions: seq<Action>)
    ensures Inv(After(START, actions)) && OrderOk(After(START, actions).store) && LogShows(After(START, actions))
    ensures NoneBlanked(After(START, actions))
  {
    NoMemoryIsErased(START, actions);
    StartIsSound("");
    EveryRunKeepsInv(START, actions);
    EveryOrderIsOk(START, actions);
    EveryRunShows(START, actions);
  }

  /** From any reachable state in which the agent is not dreaming, its backlog can be followed. */
  lemma {:induction false} IdleIsReady(actions: seq<Action>, agent: string)
    requires agent !in After(START, actions).dreaming
    ensures Ready(After(START, actions), agent)
  {
    ReachableDreams(actions);
  }

  lemma {:induction false} AfterConcat(s: State, a: seq<Action>, b: seq<Action>)
    ensures After(s, a + b) == After(After(s, a), b)
    decreases |a|
  {
    if a == [] {
      assert a + b == b;
    } else {
      TailOfConcat(a, b);
      AfterConcat(Step(s, a[0]), a[1..], b);
    }
  }

  lemma {:induction false} OneStep(s: State, a: Action)
    ensures After(s, [a]) == Step(s, a)
  {
    assert [a][1..] == [];
    Unroll(s, [a]);
  }

  /** One session with a reply. */
  const ONE_SESSION: Store := Store([1], map[1 := "a"], {1}, {}, map[])
  const SETUP: seq<Action> := [NewSession(1, "a")] + [Exchange(1)]
  const DREAM: seq<Action> := [Begin("a")] + [List(0, {})] + [Gather(0)] + [Distil(0, Some("m"))] + [Check(0)]

  lemma SetupState()
    ensures After(START, SETUP) == State(ONE_SESSION, {}, map[], 0, []) && Undreamed(ONE_SESSION, "a") == [1]
  {
    var s := Step(START, NewSession(1, "a"));
    OneStep(START, NewSession(1, "a"));
    OneStep(s, Exchange(1));
    AfterConcat(START, [NewSession(1, "a")], [Exchange(1)]);
    assert [1][1..] == [];
  }

  /** A dream that has checked the memory, with one session to fold in. */
  lemma CheckedState()
    ensures var s := After(START, SETUP + DREAM);
      && s.runs == map[0 := Run("a", Checked, [1], [1], "", "m")] && Memory(s.store, "a") == "" && s.log == []
  {
    SetupState();
    var s := State(ONE_SESSION, {}, map[], 0, []);
    NothingLive([1]);
    FirstHalf(s, "a", {});
    FiveSteps(s, Begin("a"), List(0, {}), Gather(0), Distil(0, Some("m")), Check(0));
    AfterConcat(START, SETUP, DREAM);
    TrimmedIsFixed("");
    CheckedFrom(Step(Step(Step(s, Begin("a")), List(0, {})), Gather(0)));
  }

  lemma CheckedFrom(s: State)
    requires s.runs == map[0 := Run("a", Gathered, [1], [1], "", "")] && Memory(s.store, "a") == ""
    ensures var t := Step(Step(s, Distil(0, Some("m"))), Check(0));
      t.runs == map[0 := Run("a", Checked, [1], [1], "", "m")] && t.store == s.store && t.log == s.log
  {
    TrimmedIsFixed("");
  }

  lemma {:induction false} FiveSteps(s: State, a: Action, b: Action, c: Action, d: Action, e: Action)
    ensures After(s, [a] + [b] + [c] + [d] + [e]) == Step(Step(Step(Step(Step(s, a), b), c), d), e)
  {
    OneStep(s, a);
    OneStep(Step(s, a), b);
    OneStep(Step(Step(s, a), b), c);
    OneStep(Step(Step(Step(s, a), b), c), d);
    OneStep(Step(Step(Step(Step(s, a), b), c), d), e);
    AfterConcat(s, [a] + [b] + [c] + [d], [e]);
    AfterConcat(s, [a] + [b] + [c], [d]);
    AfterConcat(s, [a] + [b], [c]);
    AfterConcat(s, [a], [b]);
  }

  /** Such a run: the user writes a note after the check, and the dream overwrites it unread. */
  lemma AnEditIsLost()
    ensures var s := After(START, SETUP + DREAM + ([Edit("a", "mine")] + [Write(0, true)]));
      Memory(s.store, "a") == "m\n" && s.log == [MemoryWritten(0, "a", [1], "", "mine", "m\n")]
  {
    CheckedState();
    var s := After(START, SETUP + DREAM);
    var edited := Step(s, Edit("a", "mine"));
    OneStep(s, Edit("a", "mine"));
    OneStep(edited, Write(0, true));
    AfterConcat(s, [Edit("a", "mine")], [Write(0, true)]);
    AfterConcat(START, SETUP + DREAM, [Edit("a", "mine")] + [Write(0, true)]);
    assert Memory(edited.store, "a") == "mine";
  }

  lemma WrittenState()
    ensures var s := After(START, SETUP + DREAM + [Write(0, true)]);
      && s.runs == map[0 := Run("a", Written, [1], [1], "", "m")]
      && Memory(s.store, "a") == "m\n" && s.store.dreamed == {}
  {
    CheckedState();
    var s := After(START, SETUP + DREAM);
    ReachableDreams(SETUP + DREAM);
    assert s.store.dreamed == {} by {
      forall id ensures id !in s.store.dreamed { assert !MarkedIn(s.log, id); }
    }
    OneStep(s, Write(0, true));
    AfterConcat(START, SETUP + DREAM, [Write(0, true)]);
  }

  /** Such a failure: the memory is written, and then the sessions cannot be marked. */
  lemma AFailureLeavesItsMemory()
    ensures var s := After(START, SETUP + DREAM + [Write(0, true)]);
      && Fails(s, Mark(0, false), 0)
      && Memory(Step(s, Mark(0, false)).store, "a") == "m\n" && Step(s, Mark(0, false)).store.dreamed == {}
  {
    WrittenState();
  }

  /** And such a one: the sessions are marked too, and then the journal row cannot be closed. */
  lemma AFailureLeavesItsMarks()
    ensures var s := After(START, SETUP + DREAM + [Write(0, true)] + [Mark(0, true)]);
      && Fails(s, Finish(0, false), 0)
      && Memory(Step(s, Finish(0, false)).store, "a") == "m\n" && Step(s, Finish(0, false)).store.dreamed == {1}
  {
    WrittenState();
    var s := After(START, SETUP + DREAM + [Write(0, true)]);
    OneStep(s, Mark(0, true));
    AfterConcat(START, SETUP + DREAM + [Write(0, true)], [Mark(0, true)]);
    assert Step(s, Mark(0, true)).store.dreamed == {1};
  }
}
