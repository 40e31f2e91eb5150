/**
 * Dreaming: folding an agent's finished sessions into its memory file. Dreams of
 * several agents, the user's edits of the memory files and new sessions
 * interleave step by step; each step is one store, file or lock operation.
 */
module Dreams {
  import opened Seqs
  import opened Text

  const MAX_SESSIONS: nat := 30

  datatype Phase = Acquired | Listed | Gathered | Distilled | Checked | Written | Marked | Finished

  predicate HasWritten(p: Phase) {
    p == Written || HasMarked(p)
  }

  predicate HasMarked(p: Phase) {
    p == Marked || p == Finished
  }

  /** A dream under way: what it read, which sessions it selected, and the memory it would write. */
  datatype Run = Run(agent: string, phase: Phase, listed: seq<int>, selected: seq<int>, read: string, text: string)

  datatype Note =
    | MemoryWritten(run: nat, agent: string, selected: seq<int>, read: string, before: string, after: string)
    | SessionsMarked(run: nat, agent: string, ids: seq<int>)

  /** order holds the session ids oldest first; an exchanged session has a user message and a reply. */
  datatype Store = Store(
    order: seq<int>, owner: map<int, string>, exchanged: set<int>, dreamed: set<int>, memory: map<string, string>)

  datatype State = State(store: Store, dreaming: set<string>, runs: map<nat, Run>, next: nat, log: seq<Note>)

  const START: State := State(Store([], map[], {}, {}, map[]), {}, map[], 0, [])

  /**
   * ReadFails: the store or the memory file cannot be read, or the journal row
   * not created. Finish closes that row, and Report reads it back.
   */
  datatype Action =
    | Begin(agent: string)
    | ReadFails(run: nat)
    | List(run: nat, live: set<int>)
    | Gather(run: nat)
    | Distil(run: nat, reply: Option<string>)
    | Check(run: nat)
    | Write(run: nat, works: bool)
    | Mark(run: nat, works: bool)
    | Finish(run: nat, works: bool)
    | Report(run: nat, works: bool)
    | Edit(agent: string, text: string)
    | NewSession(id: int, agent: string)
    | Exchange(id: int)

  function Memory(s: Store, agent: string): string {
    if agent in s.memory then s.memory[agent] else ""
  }

  function EnsureTrailingNewline(text: string): (r: string)
    ensures r == text || r == text + "\n"
    ensures r == "" || r[|r| - 1] == '\n'
    ensures r == text <==> text == "" || text[|text| - 1] == '\n'
  {
    if text == "" || text[|text| - 1] == '\n' then text else text + "\n"
  }

  predicate Pending(s: Store, agent: string, id: int) {
    id in s.owner && s.owner[id] == agent && id in s.exchanged && id !in s.dreamed
  }

  function Pick(s: Store, agent: string, ids: seq<int>): seq<int> {
    if ids == [] then []
    else if Pending(s, agent, ids[0]) then [ids[0]] + Pick(s, agent, ids[1..])
    else Pick(s, agent, ids[1..])
  }

  /** ListUndreamedSessions */
  function Undreamed(s: Store, agent: string): seq<int> {
    Pick(s, agent, s.order)
  }

  /** dreamableSessions */
  function Quiet(ids: seq<int>, live: set<int>): seq<int> {
    if ids == [] then []
    else if ids[0] in live then Quiet(ids[1..], live)
    else [ids[0]] + Quiet(ids[1..], live)
  }

  function FirstSessions(ids: seq<int>): seq<int> {
    if |ids| > MAX_SESSIONS then ids[..MAX_SESSIONS] else ids
  }

  predicate At(s: State, run: nat, phase: Phase) {
    run in s.runs && s.runs[run].phase == phase
  }

  /** However a dream ends, it is released. */
  function End(s: State, run: nat): State
    requires run in s.runs
  {
    s.(runs := s.runs - {run}, dreaming := s.dreaming - {s.runs[run].agent})
  }

  function Proceed(s: State, run: nat, r: Run): State {
    s.(runs := s.runs[run := r])
  }

  function DoBegin(s: State, agent: string): State {
    if agent in s.dreaming then s
    else s.(dreaming := s.dreaming + {agent}, runs := s.runs[s.next := Run(agent, Acquired, [], [], "", "")], next := s.next + 1)
  }

  function DoList(s: State, run: nat, live: set<int>): State
    requires run in s.runs
  {
    var r := s.runs[run];
    var ids := Quiet(Undreamed(s.store, r.agent), live);
    if ids == [] then End(s, run) else Proceed(s, run, r.(phase := Listed, listed := ids))
  }

  function DoGather(s: State, run: nat): State
    requires run in s.runs
  {
    var r := s.runs[run];
    Proceed(s, run, r.(phase := Gathered, selected := FirstSessions(r.listed), read := Memory(s.store, r.agent)))
  }

  function DoDistil(s: State, run: nat, reply: Option<string>): State
    requires run in s.runs
  {
    var r := s.runs[run];
    if reply.None? || (!Blank(r.read) && Blank(reply.value)) then End(s, run)
    else Proceed(s, run, r.(phase := Distilled, text := reply.value))
  }

  function DoCheck(s: State, run: nat): State
    requires run in s.runs
  {
    var r := s.runs[run];
    if Memory(s.store, r.agent) != r.read then End(s, run) else Proceed(s, run, r.(phase := Checked))
  }

  function DoWrite(s: State, run: nat, works: bool): State
    requires run in s.runs
  {
    var r := s.runs[run];
    if !works then End(s, run)
    else
      var text := EnsureTrailingNewline(r.text);
      Proceed(s, run, r.(phase := Written)).(
        store := s.store.(memory := s.store.memory[r.agent := text]),
        log := s.log + [MemoryWritten(run, r.agent, r.selected, r.read, Memory(s.store, r.agent), text)])
  }

  function DoMark(s: State, run: nat, works: bool): State
    requires run in s.runs
  {
    var r := s.runs[run];
    if !works then End(s, run)
    else Proceed(s, run, r.(phase := Marked)).(
      store := s.store.(dreamed := s.store.dreamed + set id | id in r.selected),
      log := s.log + [SessionsMarked(run, r.agent, r.selected)])
  }

  function DoFinish(s: State, run: nat, works: bool): State
    requires run in s.runs
  {
    if !works then End(s, run) else Proceed(s, run, s.runs[run].(phase := Finished))
  }

  predicate Reading(s: State, run: nat) {
    At(s, run, Acquired) || At(s, run, Listed) || At(s, run, Distilled)
  }

  function Step(s: State, a: Action): State {
    match a
    case Begin(agent) => DoBegin(s, agent)
    case ReadFails(run) => if Reading(s, run) then End(s, run) else s
    case List(run, live) => if At(s, run, Acquired) then DoList(s, run, live) else s
    case Gather(run) => if At(s, run, Listed) then DoGather(s, run) else s
    case Distil(run, reply) => if At(s, run, Gathered) then DoDistil(s, run, reply) else s
    case Check(run) => if At(s, run, Distilled) then DoCheck(s, run) else s
    case Write(run, works) => if At(s, run, Checked) then DoWrite(s, run, works) else s
    case Mark(run, works) => if At(s, run, Written) then DoMark(s, run, works) else s
    case Finish(run, works) => if At(s, run, Marked) then DoFinish(s, run, works) else s
    case Report(run, works) => if At(s, run, Finished) then End(s, run) else s
    case Edit(agent, text) => s.(store := s.store.(memory := s.store.memory[agent := text]))
    case NewSession(id, agent) =>
      if id in s.store.owner then s
      else s.(store := s.store.(order := s.store.order + [id], owner := s.store.owner[id := agent]))
    case Exchange(id) => s.(store := s.store.(exchanged := s.store.exchanged + {id}))
  }

  function After(s: State, actions: seq<Action>): State
    decreases |actions|
  {
    if actions == [] then s else After(Step(s, actions[0]), actions[1..])
  }

  // -------------------------------------------------------------- invariant

  /** At most one dream per agent, and an agent is flagged exactly while one runs. */
  ghost predicate OnePerAgent(dreaming: set<string>, runs: map<nat, Run>, next: nat) {
    && (forall n :: n in runs ==> n < next && runs[n].agent in dreaming)
    && (forall a :: a in dreaming ==> exists n :: n in runs && runs[n].agent == a)
    && (forall m, n :: m in runs && n in runs && m != n ==> runs[m].agent != runs[n].agent)
  }

  /** Sessions an agent owns that no dream has folded in yet. */
  predicate Fresh(s: Store, agent: string, ids: seq<int>) {
    forall id :: id in ids ==> id in s.owner && s.owner[id] == agent && id !in s.dreamed
  }

  predicate Wrote(note: Note, run: nat, agent: string, selected: seq<int>) {
    note.MemoryWritten? && note.run == run && note.agent == agent && note.selected == selected
  }

  predicate WrittenBy(log: seq<Note>, run: nat, agent: string, selected: seq<int>) {
    exists i :: 0 <= i < |log| && Wrote(log[i], run, agent, selected)
  }

  predicate RunOk(run: nat, r: Run, store: Store, log: seq<Note>) {
    && (!HasMarked(r.phase) ==> Fresh(store, r.agent, r.listed) && Fresh(store, r.agent, r.selected))
    && |r.selected| <= MAX_SESSIONS
    && (HasWritten(r.phase) ==> WrittenBy(log, run, r.agent, r.selected))
  }

  ghost predicate RunsOk(runs: map<nat, Run>, store: Store, log: seq<Note>) {
    forall n :: n in runs ==> RunOk(n, runs[n], store, log)
  }

  predicate MarkedIn(log: seq<Note>, id: int) {
    exists j :: 0 <= j < |log| && log[j].SessionsMarked? && id in log[j].ids
  }

  /** Sessions are marked by a dream that selected them, after it wrote the memory, and only once. */
  ghost predicate LogOk(log: seq<Note>, dreamed: set<int>) {
    && (forall j :: 0 <= j < |log| && log[j].SessionsMarked? ==> WrittenBy(log[..j], log[j].run, log[j].agent, log[j].ids))
    && (forall id :: id in dreamed <==> MarkedIn(log, id))
    && (forall i, j :: 0 <= i < j < |log| && log[i].SessionsMarked? && log[j].SessionsMarked? ==>
          forall id :: id in log[i].ids ==> id !in log[j].ids)
  }

  ghost predicate Inv(s: State) {
    OnePerAgent(s.dreaming, s.runs, s.next) && RunsOk(s.runs, s.store, s.log) && LogOk(s.log, s.store.dreamed)
  }

  lemma DropRun(dreaming: set<string>, runs: map<nat, Run>, next: nat, run: nat)
    requires OnePerAgent(dreaming, runs, next) && run in runs
    ensures OnePerAgent(dreaming - {runs[run].agent}, runs - {run}, next)
  {
    var left := runs - {run};
    forall a | a in dreaming - {runs[run].agent} ensures exists n :: n in left && left[n].agent == a {
      var n :| n in runs && runs[n].agent == a;
      assert n in left;
    }
  }

  lemma ChangeRun(dreaming: set<string>, runs: map<nat, Run>, next: nat, run: nat, r: Run)
    requires OnePerAgent(dreaming, runs, next) && run in runs && r.agent == runs[run].agent
    ensures OnePerAgent(dreaming, runs[run := r], next)
  {
    var now := runs[run := r];
    forall a | a in dreaming ensures exists n :: n in now && now[n].agent == a {
      var n :| n in runs && runs[n].agent == a;
      assert n in now && now[n].agent == a;
    }
  }

  lemma AddRun(dreaming: set<string>, runs: map<nat, Run>, next: nat, r: Run)
    requires OnePerAgent(dreaming, runs, next) && r.agent !in dreaming
    ensures OnePerAgent(dreaming + {r.agent}, runs[next := r], next + 1)
  {
    var now := runs[next := r];
    forall a | a in dreaming + {r.agent} ensures exists n :: n in now && now[n].agent == a {
      if a == r.agent {
        assert now[next].agent == a;
      } else {
        var n :| n in runs && runs[n].agent == a;
        assert n in now && now[n].agent == a;
      }
    }
  }

  lemma EndInv(s: State, run: nat)
    requires Inv(s) && run in s.runs
    ensures Inv(End(s, run))
  {
    DropRun(s.dreaming, s.runs, s.next, run);
  }

  /** Moving a run on within its own fields. */
  lemma ProceedInv(s: State, run: nat, r: Run)
    requires Inv(s) && run in s.runs && r.agent == s.runs[run].agent && RunOk(run, r, s.store, s.log)
    ensures Inv(Proceed(s, run, r))
  {
    ChangeRun(s.dreaming, s.runs, s.next, run, r);
  }

  lemma BeginInv(s: State, agent: string)
    requires Inv(s)
    ensures Inv(DoBegin(s, agent))
  {
    if agent !in s.dreaming { AddRun(s.dreaming, s.runs, s.next, Run(agent, Acquired, [], [], "", "")); }
  }

  lemma WrittenStays(log: seq<Note>, note: Note, run: nat, agent: string, selected: seq<int>)
    requires WrittenBy(log, run, agent, selected)
    ensures WrittenBy(log + [note], run, agent, selected)
  {
    var i :| 0 <= i < |log| && Wrote(log[i], run, agent, selected);
    assert (log + [note])[i] == log[i];
  }

  /** The other runs do not mind a new note, or other agents' sessions being marked. */
  lemma OtherRunsOk(runs: map<nat, Run>, store: Store, log: seq<Note>, note: Note, after: Store)
    requires RunsOk(runs, store, log) && after.owner == store.owner
    requires forall n, id :: n in runs && id in after.dreamed && id !in store.dreamed && id in store.owner ==>
      store.owner[id] != runs[n].agent
    ensures RunsOk(runs, after, log + [note])
  {
    forall n | n in runs ensures RunOk(n, runs[n], after, log + [note]) {
      assert RunOk(n, runs[n], store, log);
      if HasWritten(runs[n].phase) { WrittenStays(log, note, n, runs[n].agent, runs[n].selected); }
    }
  }

  lemma LogPlain(log: seq<Note>, dreamed: set<int>, note: Note)
    requires LogOk(log, dreamed) && note.MemoryWritten?
    ensures LogOk(log + [note], dreamed)
  {
    var now := log + [note];
    forall j | 0 <= j < |now| && now[j].SessionsMarked? ensures WrittenBy(now[..j], now[j].run, now[j].agent, now[j].ids) {
      assert now[..j] == log[..j];
    }
    MarkedNow(log, note);
  }

  lemma MarkedNow(log: seq<Note>, note: Note)
    ensures forall id :: MarkedIn(log + [note], id) <==> MarkedIn(log, id) || (note.SessionsMarked? && id in note.ids)
  {
    var now := log + [note];
    forall id ensures MarkedIn(now, id) <==> MarkedIn(log, id) || (note.SessionsMarked? && id in note.ids) {
      if MarkedIn(log, id) {
        var j :| 0 <= j < |log| && log[j].SessionsMarked? && id in log[j].ids;
        assert now[j] == log[j];
      }
      if note.SessionsMarked? && id in note.ids { assert now[|log|] == note; }
    }
  }

  lemma LogMark(log: seq<Note>, dreamed: set<int>, note: Note, more: set<int>)
    requires LogOk(log, dreamed) && note.SessionsMarked? && WrittenBy(log, note.run, note.agent, note.ids)
    requires forall id :: id in note.ids ==> id !in dreamed
    requires forall id :: id in more <==> id in note.ids
    ensures LogOk(log + [note], dreamed + more)
  {
    var now := log + [note];
    forall j | 0 <= j < |now| && now[j].SessionsMarked? ensures WrittenBy(now[..j], now[j].run, now[j].agent, now[j].ids) {
      assert now[..j] == log[..j];
    }
    MarkedNow(log, note);
    forall i, j | 0 <= i < j < |now| && now[i].SessionsMarked? && now[j].SessionsMarked?
      ensures forall id :: id in now[i].ids ==> id !in now[j].ids
    {
      if j == |log| {
        forall id | id in now[i].ids ensures id !in note.ids {
          assert MarkedIn(log, id);
        }
      }
    }
  }

  lemma WriteInv(s: State, run: nat)
    requires Inv(s) && At(s, run, Checked)
    ensures Inv(DoWrite(s, run, true))
  {
    var t, r := DoWrite(s, run, true), s.runs[run];
    var note := t.log[|s.log|];
    LogPlain(s.log, s.store.dreamed, note);
    OtherRunsOk(s.runs, s.store, s.log, note, t.store);
    assert WrittenBy(t.log, run, r.agent, r.selected) by { assert Wrote(t.log[|s.log|], run, r.agent, r.selected); }
    assert RunOk(run, t.runs[run], t.store, t.log);
    ChangeRun(s.dreaming, s.runs, s.next, run, t.runs[run]);
  }

  lemma MarkInv(s: State, run: nat)
    requires Inv(s) && At(s, run, Written)
    ensures Inv(DoMark(s, run, true))
  {
    var t, r, e := DoMark(s, run, true), s.runs[run], End(s, run);
    var note := SessionsMarked(run, r.agent, r.selected);
    assert RunOk(run, r, s.store, s.log);
    LogMark(s.log, s.store.dreamed, note, set id | id in r.selected);
    OtherRunsOk(e.runs, s.store, s.log, note, t.store);
    WrittenStays(s.log, note, run, r.agent, r.selected);
    ChangeRun(s.dreaming, s.runs, s.next, run, t.runs[run]);
    forall n | n in t.runs ensures RunOk(n, t.runs[n], t.store, t.log) {
      if n != run { assert n in e.runs && e.runs[n] == t.runs[n]; }
    }
  }

  lemma {:induction false} PickIsFresh(s: Store, agent: string, live: set<int>)
    ensures Fresh(s, agent, Quiet(Undreamed(s, agent), live))
  {
    PickTakesPending(s, agent, s.order);
    QuietDropsLive(Undreamed(s, agent), live);
  }

  lemma {:induction false} PickTakesPending(s: Store, agent: string, ids: seq<int>)
    ensures forall id :: id in Pick(s, agent, ids) <==> id in ids && Pending(s, agent, id)
  {
    if ids != [] {
      PickTakesPending(s, agent, ids[1..]);
      assert ids == [ids[0]] + ids[1..];
    }
  }

  lemma {:induction false} QuietDropsLive(ids: seq<int>, live: set<int>)
    ensures forall id :: id in Quiet(ids, live) <==> id in ids && id !in live
  {
    if ids != [] {
      QuietDropsLive(ids[1..], live);
      assert ids == [ids[0]] + ids[1..];
    }
  }

  // ------------------------------------------------- which sessions are chosen

  ghost predicate Before(order: seq<int>, a: int, b: int) {
    exists p, q :: 0 <= p < q < |order| && order[p] == a && order[q] == b
  }

  /** ids come in the order given. */
  ghost predicate InOrder(ids: seq<int>, order: seq<int>) {
    forall i, j :: 0 <= i < j < |ids| ==> Before(order, ids[i], ids[j])
  }

  lemma BeforeInTail(order: seq<int>, ids: seq<int>)
    requires order != [] && InOrder(ids, order[1..])
    ensures InOrder(ids, order)
  {
    forall i, j | 0 <= i < j < |ids| ensures Before(order, ids[i], ids[j]) {
      assert Before(order[1..], ids[i], ids[j]);
      var p, q :| 0 <= p < q < |order[1..]| && order[1..][p] == ids[i] && order[1..][q] == ids[j];
      assert order[p + 1] == ids[i] && order[q + 1] == ids[j];
    }
  }

  lemma HeadInOrder(order: seq<int>, ids: seq<int>)
    requires order != [] && InOrder(ids, order[1..]) && forall id :: id in ids ==> id in order[1..]
    ensures InOrder([order[0]] + ids, order)
  {
    BeforeInTail(order, ids);
    var all := [order[0]] + ids;
    forall i, j | 0 <= i < j < |all| ensures Before(order, all[i], all[j]) {
      if i == 0 {
        assert all[j] == ids[j - 1] && ids[j - 1] in ids;
        var q :| 0 <= q < |order[1..]| && order[1..][q] == all[j];
        assert order[0] == all[0] && order[q + 1] == all[j];
      } else {
        assert all[i] == ids[i - 1] && all[j] == ids[j - 1];
      }
    }
  }

  lemma {:induction false} ChosenInOrder(s: Store, agent: string, order: seq<int>, live: set<int>)
    ensures InOrder(Quiet(Pick(s, agent, order), live), order)
  {
    if order != [] {
      var rest := Pick(s, agent, order[1..]);
      ChosenInOrder(s, agent, order[1..], live);
      PickTakesPending(s, agent, order[1..]);
      QuietDropsLive(rest, live);
      BeforeInTail(order, Quiet(rest, live));
      HeadInOrder(order, Quiet(rest, live));
      if Pending(s, agent, order[0]) { assert ([order[0]] + rest)[1..] == rest; }
    }
  }

  /** A session a dream of the agent may fold in: its own, with an exchange, not dreamed yet and without a live turn. */
  predicate Eligible(s: Store, agent: string, live: set<int>, id: int) {
    && id in s.order && id in s.owner && s.owner[id] == agent
    && id in s.exchanged && id !in s.dreamed && id !in live
  }

  /**
   * A dream takes eligible sessions only, oldest first, and leaves one out only
   * if it takes 30 others, all of them older.
   */
  lemma {:induction false} OldestAreChosen(s: Store, agent: string, live: set<int>)
    ensures var ids := FirstSessions(Quiet(Undreamed(s, agent), live));
      && |ids| <= 30 && InOrder(ids, s.order)
      && (forall id :: id in ids ==> Eligible(s, agent, live, id))
      && (forall id :: Eligible(s, agent, live, id) && id !in ids ==>
            |ids| == 30 && forall k :: 0 <= k < 30 ==> Before(s.order, ids[k], id))
  {
    var all := Quiet(Undreamed(s, agent), live);
    var ids := FirstSessions(all);
    ChosenInOrder(s, agent, s.order, live);
    PickTakesPending(s, agent, s.order);
    QuietDropsLive(Undreamed(s, agent), live);
    forall id | Eligible(s, agent, live, id) && id !in ids
      ensures |ids| == 30 && forall k :: 0 <= k < 30 ==> Before(s.order, ids[k], id)
    {
      var j :| 0 <= j < |all| && all[j] == id;
      assert forall k :: 0 <= k < |ids| ==> all[k] == ids[k];
    }
  }

  lemma StepInv(s: State, a: Action)
    requires Inv(s)
    ensures Inv(Step(s, a))
  {
    match a
    case Begin(agent) => BeginInv(s, agent);
    case ReadFails(run) => if Reading(s, run) { EndInv(s, run); }
    case List(run, live) => if At(s, run, Acquired) { ListInv(s, run, live); }
    case Gather(run) => if At(s, run, Listed) { GatherInv(s, run); }
    case Distil(run, reply) => if At(s, run, Gathered) { DistilInv(s, run, reply); }
    case Check(run) => if At(s, run, Distilled) { CheckInv(s, run); }
    case Write(run, works) => if At(s, run, Checked) { if works { WriteInv(s, run); } else { EndInv(s, run); } }
    case Mark(run, works) => if At(s, run, Written) { if works { MarkInv(s, run); } else { EndInv(s, run); } }
    case Finish(run, works) => if At(s, run, Marked) { FinishInv(s, run, works); }
    case Report(run, works) => if At(s, run, Finished) { EndInv(s, run); }
    case Edit(agent, text) => StoreInv(s, Step(s, a).store);
    case NewSession(id, agent) => StoreInv(s, Step(s, a).store);
    case Exchange(id) => StoreInv(s, Step(s, a).store);
  }

  lemma ListInv(s: State, run: nat, live: set<int>)
    requires Inv(s) && At(s, run, Acquired)
    ensures Inv(DoList(s, run, live))
  {
    var r := s.runs[run];
    var ids := Quiet(Undreamed(s.store, r.agent), live);
    assert RunOk(run, r, s.store, s.log);
    PickIsFresh(s.store, r.agent, live);
    if ids == [] { EndInv(s, run); } else { ProceedInv(s, run, r.(phase := Listed, listed := ids)); }
  }

  lemma GatherInv(s: State, run: nat)
    requires Inv(s) && At(s, run, Listed)
    ensures Inv(DoGather(s, run))
  {
    var r := s.runs[run];
    assert RunOk(run, r, s.store, s.log);
    ProceedInv(s, run, r.(phase := Gathered, selected := FirstSessions(r.listed), read := Memory(s.store, r.agent)));
  }

  lemma DistilInv(s: State, run: nat, reply: Option<string>)
    requires Inv(s) && At(s, run, Gathered)
    ensures Inv(DoDistil(s, run, reply))
  {
    EndInv(s, run);
    assert RunOk(run, s.runs[run], s.store, s.log);
    if reply.Some? { ProceedInv(s, run, s.runs[run].(phase := Distilled, text := reply.value)); }
  }

  lemma CheckInv(s: State, run: nat)
    requires Inv(s) && At(s, run, Distilled)
    ensures Inv(DoCheck(s, run))
  {
    EndInv(s, run);
    assert RunOk(run, s.runs[run], s.store, s.log);
    ProceedInv(s, run, s.runs[run].(phase := Checked));
  }

  lemma FinishInv(s: State, run: nat, works: bool)
    requires Inv(s) && At(s, run, Marked)
    ensures Inv(DoFinish(s, run, works))
  {
    EndInv(s, run);
    assert RunOk(run, s.runs[run], s.store, s.log);
    ProceedInv(s, run, s.runs[run].(phase := Finished));
  }

  /** New sessions, new exchanges and edited memory files do not disturb dreams. */
  lemma StoreInv(s: State, after: Store)
    requires Inv(s) && after.dreamed == s.store.dreamed
    requires forall id :: id in s.store.owner ==> id in after.owner && after.owner[id] == s.store.owner[id]
    ensures Inv(s.(store := after))
  {
    forall n | n in s.runs ensures RunOk(n, s.runs[n], after, s.log) {
      assert RunOk(n, s.runs[n], s.store, s.log);
    }
  }

  /**
   * Under every interleaving: at most one dream per agent runs; a session is
   * marked dreamed only by a dream that had selected it and already written the
   * memory; and no session is marked twice.
   */
  lemma {:induction false} EveryRunKeepsInv(s: State, actions: seq<Action>)
    requires Inv(s)
    ensures Inv(After(s, actions))
    decreases |actions|
  {
    if actions != [] {
      StepInv(s, actions[0]);
      EveryRunKeepsInv(Step(s, actions[0]), actions[1..]);
    }
  }
}
