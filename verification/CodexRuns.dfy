/** What every run of the client guarantees to a call. */
module CodexRuns {
  import opened Seqs
  import opened CodexProtocol

  function Front(run: seq<Action>): seq<Action>
    requires run != []
  {
    run[..|run| - 1]
  }

  function Last(run: seq<Action>): Action
    requires run != []
  {
    run[|run| - 1]
  }

  lemma {:induction false} PrefixRuns(run: seq<Action>, more: seq<Action>)
    requires Exec(run + more).Some?
    ensures Exec(run).Some?
  {
    if more == [] {
      assert run + more == run;
    } else {
      assert Front(run + more) == run + more[..|more| - 1];
      PrefixRuns(run, more[..|more| - 1]);
    }
  }

  // --------------------------------------------------------------- calls

  /** Without a process nobody waits, and a call's channel is free whenever something is sent on it. */
  lemma {:induction false} CallSendsNeverBlock(run: seq<Action>)
    requires Exec(run).Some?
    ensures var s := Exec(run).value;
      && (s.process.stdin.None? ==> s.calls.pending == {} && !s.process.initialized)
      && (forall id :: id in s.calls.replies ==> |s.calls.replies[id]| <= 1)
      && (forall id :: id in s.calls.pending ==> id in s.calls.replies && s.calls.replies[id] == [])
      && (forall g :: Debt(s.readers, g).Some? ==> CanSend(s, s.readers[g][0]))
  {
    EveryRunKeepsInv(run);
  }

  /** The exit of an older process's reader takes that reader away and changes nothing else. */
  lemma {:induction false} StaleExitChangesNothing(run: seq<Action>, reader: nat)
    requires Exec(run).Some? && Enabled(Exec(run).value, ReaderExit(reader))
    requires reader + 1 < Exec(run).value.process.starts
    ensures var s := Exec(run).value;
      Step(s, ReaderExit(reader)) == s.(readers := s.readers - {reader})
  {
    EveryRunKeepsInv(run);
  }

  /** A process answers only requests that were written to it (or ids nobody has used). */
  ghost predicate Honest(run: seq<Action>) {
    run != [] ==>
      && Honest(Front(run))
      && (Last(run).Respond? && Exec(Front(run)).Some? ==>
            var issued := Exec(Front(run)).value.calls.issued;
            Last(run).id in issued ==> issued[Last(run).id] == Last(run).reader)
  }

  ghost predicate RepliesComeFromTheirProcess(calls: Calls) {
    forall id :: id in calls.replies && id in calls.issued && |calls.replies[id]| == 1
                 && calls.replies[id][0].Response? ==>
      calls.replies[id][0].from == calls.issued[id]
  }

  ghost predicate DebtsComeFromTheirProcess(s: Client) {
    forall g :: Debt(s.readers, g).Some? && Debt(s.readers, g).value in s.calls.issued ==>
      s.calls.issued[Debt(s.readers, g).value] == g
  }

  lemma OnlyIssueWritesIds(s: Client, a: Action)
    requires Enabled(s, a) && !a.Issue?
    ensures Step(s, a).calls.issued == s.calls.issued && Step(s, a).calls.nextID == s.calls.nextID
  {
  }

  lemma IssuedOnlyGrows(s: Client, a: Action)
    requires CallsOk(s.calls) && Enabled(s, a)
    ensures var t := Step(s, a);
      && s.calls.nextID <= t.calls.nextID
      && (forall id :: id in s.calls.issued ==> id in t.calls.issued && t.calls.issued[id] == s.calls.issued[id])
      && (forall id :: id in t.calls.issued && id !in s.calls.issued ==> id == s.calls.nextID + 1)
  {
    if !a.Issue? { OnlyIssueWritesIds(s, a); }
  }

  /** Only a reader that has just read a response owes a call something new. */
  lemma OthersOweNothingNew(s: Client, a: Action, g: nat)
    requires Inv(s) && Enabled(s, a)
    requires a.Respond? ==> g != a.reader
    ensures var t := Step(s, a);
      Debt(t.readers, g).Some? ==> Debt(t.readers, g) == Debt(s.readers, g)
  {
    if a.Deliver? && a.reader == g && |s.readers[g]| > 1 {
      assert s.readers[g][1..][0] == s.readers[g][1];
    }
  }

  lemma StepKeepsDebtOrigin(s: Client, a: Action)
    requires Inv(s) && Enabled(s, a) && DebtsComeFromTheirProcess(s)
    requires a.Respond? && a.id in s.calls.issued ==> s.calls.issued[a.id] == a.reader
    ensures DebtsComeFromTheirProcess(Step(s, a))
  {
    var t := Step(s, a);
    IssuedOnlyGrows(s, a);
    forall g | Debt(t.readers, g).Some? && Debt(t.readers, g).value in t.calls.issued
      ensures t.calls.issued[Debt(t.readers, g).value] == g
    {
      if !a.Respond? || g != a.reader { OthersOweNothingNew(s, a, g); }
    }
  }

  lemma StepKeepsReplyOrigin(s: Client, a: Action)
    requires Inv(s) && Enabled(s, a) && RepliesComeFromTheirProcess(s.calls) && DebtsComeFromTheirProcess(s)
    ensures RepliesComeFromTheirProcess(Step(s, a).calls)
  {
    if a.Deliver? && s.readers[a.reader][0].ToCall? {
      assert Debt(s.readers, a.reader) == Some(s.readers[a.reader][0].id);
    }
  }

  /**
   * A result a call returns names the id that call wrote and comes from the
   * process the request was written to, however often the process restarted.
   */
  lemma {:induction false} ResultsReachTheirCall(run: seq<Action>)
    requires Exec(run).Some? && Honest(run)
    ensures var s := Exec(run).value;
      && RepliesComeFromTheirProcess(s.calls)
      && DebtsComeFromTheirProcess(s)
      && s.calls.replies.Keys == s.calls.issued.Keys
      && forall id :: id in s.calls.replies && s.calls.replies[id] != [] && s.calls.replies[id][0].Response? ==>
           s.calls.replies[id][0].id == id
  {
    EveryRunKeepsInv(run);
    if run != [] {
      ResultsReachTheirCall(Front(run));
      EveryRunKeepsInv(Front(run));
      StepKeepsDebtOrigin(Exec(Front(run)).value, Last(run));
      StepKeepsReplyOrigin(Exec(Front(run)).value, Last(run));
    }
  }

  /** An id, once written to a process, is never written again: not after a reset, not after a restart. */
  lemma {:induction false} IdsAreNeverReused(run: seq<Action>, more: seq<Action>)
    requires Exec(run + more).Some?
    ensures Exec(run).Some?
    ensures var c, d := Exec(run).value.calls, Exec(run + more).value.calls;
      && c.nextID <= d.nextID
      && (forall id :: id in c.issued ==> id in d.issued && d.issued[id] == c.issued[id])
      && (forall id :: id in d.issued && id !in c.issued ==> id > c.nextID)
  {
    if more == [] {
      assert run + more == run;
    } else {
      var shorter := run + more[..|more| - 1];
      assert Front(run + more) == shorter;
      IdsAreNeverReused(run, more[..|more| - 1]);
      EveryRunKeepsInv(shorter);
      IssuedOnlyGrows(Exec(shorter).value, Last(run + more));
    }
  }

  // ------------------------------------------------------- what becomes of a call

  /**
   * When the connection is reset, or the current process's reader ends, every
   * call that waits is told, each once, and so is every turn with room.
   */
  lemma {:induction false} FailuresTellEveryone(run: seq<Action>, a: Action)
    requires Exec(run).Some? && Enabled(Exec(run).value, a)
    ensures var s := Exec(run).value;
      && (a.Reset? ==> Told(s, Step(s, a), "connection reset"))
      && (a.ReaderExit? && s.process.cmd == Some(a.reader) ==> Told(s, Step(s, a), "stream ended"))
  {
    EveryRunKeepsInv(run);
    if a.Reset? { FailTells(Exec(run).value, "connection reset"); }
    if a.ReaderExit? { ExitTells(Exec(run).value, a.reader); }
  }

  /** The call gave up, at some moment of the run at which it was still waiting. */
  ghost predicate GaveUp(run: seq<Action>, id: nat) {
    run != [] &&
    (GaveUp(Front(run), id)
     || (Last(run) == Cancel(id) && Exec(Front(run)).Some? && id in Exec(Front(run)).value.calls.pending))
  }

  predicate Owed(s: Client, id: nat) {
    exists g :: g in s.readers && Debt(s.readers, g) == Some(id)
  }

  predicate Replied(s: Client, id: nat) {
    id in s.calls.replies && |s.calls.replies[id]| == 1
  }

  function Truth(b: bool): nat {
    if b then 1 else 0
  }

  /** A call that was written is in exactly one state: it waits, it gave up, a reader owes it its response, or it has one reply. */
  ghost predicate Settled(s: Client, run: seq<Action>, id: nat) {
    Truth(id in s.calls.pending) + Truth(GaveUp(run, id)) + Truth(Owed(s, id)) + Truth(Replied(s, id)) == 1
  }

  /** Nobody gives up, or is owed anything, under an id not given out yet. */
  ghost predicate Unheard(s: Client, run: seq<Action>) {
    forall id :: GaveUp(run, id) || Owed(s, id) ==> id in s.calls.issued
  }

  /** Who owes a call something after a step: those who did, but for the one that paid, and the one that has just read its response. */
  lemma OwedNext(s: Client, a: Action, id: nat)
    requires Inv(s) && Enabled(s, a)
    ensures Owed(Step(s, a), id) <==>
      || (a.Respond? && a.id == id && id in s.calls.pending)
      || (Owed(s, id) && !(a.Deliver? && Debt(s.readers, a.reader) == Some(id)))
  {
    var t := Step(s, a);
    if g :| g in t.readers && Debt(t.readers, g) == Some(id) {
      if !a.Respond? || g != a.reader { OthersOweNothingNew(s, a, g); }
    }
    if a.Respond? && a.id == id && id in s.calls.pending { assert Debt(t.readers, a.reader) == Some(id); }
    if Owed(s, id) {
      var g :| g in s.readers && Debt(s.readers, g) == Some(id);
      if !(a.Deliver? && a.reader == g) { StaysOwed(s, a, g); }
    }
  }

  /** A reader that owes a call something does nothing else before it has paid. */
  lemma StaysOwed(s: Client, a: Action, g: nat)
    requires Inv(s) && Enabled(s, a) && g in s.readers && Debt(s.readers, g).Some?
    requires !(a.Deliver? && a.reader == g)
    ensures g in Step(s, a).readers && Debt(Step(s, a).readers, g) == Debt(s.readers, g)
  {
  }

  /** What a step makes of the calls that wait, and of the replies. */
  lemma CallNext(s: Client, a: Action, id: nat)
    requires Inv(s) && Enabled(s, a) && id in s.calls.issued
    ensures var t := Step(s, a);
      var told := a.Reset? || (a.ReaderExit? && s.process.cmd == Some(a.reader));
      && (id in t.calls.pending <==>
            id in s.calls.pending && !told && a != Cancel(id) && !(a.Respond? && a.id == id))
      && (Replied(t, id) <==>
            || Replied(s, id)
            || (told && id in s.calls.pending)
            || (a.Deliver? && Debt(s.readers, a.reader) == Some(id)))
  {
    match a
    case Reset => FailTells(s, "connection reset");
    case ReaderExit(g) => ExitTells(s, g);
    case Deliver(g) =>
      if s.readers[g][0].ToCall? { assert Debt(s.readers, g) == Some(s.readers[g][0].id); }
    case _ =>
  }

  lemma {:induction false} SettledNext(s: Client, run: seq<Action>, a: Action, id: nat)
    requires Inv(s) && Enabled(s, a) && Exec(run) == Some(s) && id in s.calls.issued && Settled(s, run, id)
    ensures Settled(Step(s, a), run + [a], id)
  {
    CallNext(s, a, id);
    OwedNext(s, a, id);
    assert Front(run + [a]) == run && Last(run + [a]) == a;
    assert GaveUp(run + [a], id) <==> GaveUp(run, id) || (a == Cancel(id) && id in s.calls.pending);
    if a.Deliver? && Debt(s.readers, a.reader) == Some(id) { assert Owed(s, id); }
  }

  lemma {:induction false} UnheardNext(s: Client, run: seq<Action>, a: Action)
    requires Inv(s) && Enabled(s, a) && Exec(run) == Some(s) && Unheard(s, run)
    ensures Unheard(Step(s, a), run + [a])
  {
    assert Front(run + [a]) == run && Last(run + [a]) == a;
    IssuedOnlyGrows(s, a);
    forall id | GaveUp(run + [a], id) || Owed(Step(s, a), id) ensures id in Step(s, a).calls.issued {
      OwedNext(s, a, id);
    }
  }

  /** A call that has just been written waits, and nothing else. */
  lemma {:induction false} NewCallWaits(s: Client, run: seq<Action>, a: Action, id: nat)
    requires Inv(s) && Enabled(s, a) && Exec(run) == Some(s) && Unheard(s, run)
    requires id !in s.calls.issued && id in Step(s, a).calls.issued
    ensures Settled(Step(s, a), run + [a], id)
  {
    if !a.Issue? { OnlyIssueWritesIds(s, a); }
    assert Front(run + [a]) == run && Last(run + [a]) == a;
    OwedNext(s, a, id);
  }

  /**
   * At every moment of every run, each call whose request was written is in
   * exactly one state: it waits; it gave up while it waited; a reader owes it
   * the response; or it has exactly one reply. No call is forgotten, and none
   * gets an answer twice.
   */
  lemma {:induction false} EveryCallIsSettled(run: seq<Action>)
    requires Exec(run).Some?
    ensures forall id :: id in Exec(run).value.calls.issued ==> Settled(Exec(run).value, run, id)
    ensures Unheard(Exec(run).value, run)
  {
    if run != [] {
      var before, a := Front(run), Last(run);
      var s := Exec(before).value;
      assert run == before + [a];
      EveryCallIsSettled(before);
      EveryRunKeepsInv(before);
      UnheardNext(s, before, a);
      forall id | id in Exec(run).value.calls.issued ensures Settled(Exec(run).value, run, id) {
        if id in s.calls.issued { SettledNext(s, before, a, id); } else { NewCallWaits(s, before, a, id); }
      }
    }
  }

  /** What an answer to a call goes back to: a response a process gave while the call waited, or a failure then. */
  ghost predicate Answers(s: Client, a: Action, id: nat, reply: Reply) {
    && id in s.calls.pending
    && match reply
       case Response(named, from, body) => named == id && a == Respond(from, id, body)
       case Failed(reason) =>
         || (a == Reset && reason == "connection reset")
         || (a.ReaderExit? && s.process.cmd == Some(a.reader) && reason == "stream ended")
  }

  ghost predicate Caused(run: seq<Action>, id: nat, reply: Reply) {
    run != [] &&
    (Caused(Front(run), id, reply) || (Exec(Front(run)).Some? && Answers(Exec(Front(run)).value, Last(run), id, reply)))
  }

  ghost predicate AllCaused(s: Client, run: seq<Action>) {
    && (forall id :: Replied(s, id) ==> Caused(run, id, s.calls.replies[id][0]))
    && (forall g :: Debt(s.readers, g).Some? ==> Caused(run, s.readers[g][0].id, s.readers[g][0].reply))
  }

  lemma {:induction false} CausedNext(s: Client, run: seq<Action>, a: Action)
    requires Inv(s) && Enabled(s, a) && Exec(run) == Some(s) && AllCaused(s, run)
    ensures AllCaused(Step(s, a), run + [a])
  {
    var t, more := Step(s, a), run + [a];
    assert Front(more) == run && Last(more) == a;
    forall id | Replied(t, id) ensures Caused(more, id, t.calls.replies[id][0]) { ReplyCausedNext(s, run, a, id); }
    forall g | Debt(t.readers, g).Some? ensures Caused(more, t.readers[g][0].id, t.readers[g][0].reply) {
      if !a.Respond? || g != a.reader {
        OthersOweNothingNew(s, a, g);
        assert t.readers[g][0] == s.readers[g][0];
      }
    }
  }

  lemma {:induction false} ReplyCausedNext(s: Client, run: seq<Action>, a: Action, id: nat)
    requires Inv(s) && Enabled(s, a) && Exec(run) == Some(s) && AllCaused(s, run) && Replied(Step(s, a), id)
    ensures Caused(run + [a], id, Step(s, a).calls.replies[id][0])
  {
    assert Front(run + [a]) == run && Last(run + [a]) == a;
    match a
    case Reset => FailTells(s, "connection reset");
    case ReaderExit(g) => ExitTells(s, g);
    case Deliver(g) =>
      if s.readers[g][0].ToCall? && s.readers[g][0].id == id { assert Debt(s.readers, g) == Some(id); }
    case _ =>
  }

  /** Every reply a call has, or is owed, was caused so: nothing is made up, and a response keeps its body. */
  lemma {:induction false} EveryReplyIsCaused(run: seq<Action>)
    requires Exec(run).Some?
    ensures AllCaused(Exec(run).value, run)
  {
    if run != [] {
      EveryReplyIsCaused(Front(run));
      EveryRunKeepsInv(Front(run));
      assert run == Front(run) + [Last(run)];
      CausedNext(Exec(Front(run)).value, Front(run), Last(run));
    }
  }
}
