/** Dreaming as the daemon's object does it when nothing interleaves: flags, files and marks updated in place. */
module DreamCore {
  import opened Seqs
  import opened Text
  import opened Dreams
  import opened DreamRuns

  datatype Outcome = InProgress | NoOp | Failed | Succeeded

  class Core {
    var dreaming: map<string, bool>
    var store: Store

    constructor (start: Store)
      ensures store == start && dreaming == map[]
    {
      store, dreaming := start, map[];
    }

    method AcquireDream(name: string) returns (ok: bool)
      modifies this`dreaming
      ensures ok <==> !(name in old(dreaming) && old(dreaming)[name])
      ensures dreaming == if ok then old(dreaming)[name := true] else old(dreaming)
    {
      if name in dreaming && dreaming[name] { return false; }
      dreaming := dreaming[name := true];
      ok := true;
    }

    method ReleaseDream(name: string)
      modifies this`dreaming
      ensures dreaming == old(dreaming) - {name}
    {
      dreaming := dreaming - {name};
    }

    /** applyDream: the memory file first, then the marks, one session at a time but all or none, then the journal. */
    method ApplyDream(name: string, ids: seq<int>, text: string, w: Works) returns (ok: bool)
      modifies this`store
      ensures store == Dreamed(old(store), name, ids, text, w)
      ensures store ==
        var was := old(store);
        Store(was.order, was.owner, was.exchanged, if w.write && w.mark then was.dreamed + (set id | id in ids) else was.dreamed,
              if w.write then was.memory[name := EnsureTrailingNewline(text)] else was.memory)
      ensures ok <==> w.write && w.mark && w.finish
    {
      if !w.write { return false; }
      store := store.(memory := store.memory[name := EnsureTrailingNewline(text)]);
      if !w.mark { return false; }
      var marks := store.dreamed;
      for i := 0 to |ids|
        invariant marks == store.dreamed + set id | id in ids[..i]
      {
        assert ids[..i + 1] == ids[..i] + [ids[i]];
        marks := marks + {ids[i]};
      }
      assert ids[..|ids|] == ids;
      store := store.(dreamed := marks);
      ok := w.finish;
    }

    /**
     * DreamAgent, with the live sessions, the model's reply and what fails given.
     * Every way out releases the agent; a failed dream leaves the store as it was
     * if its write did not succeed, and the sessions unmarked if their marking did not.
     */
    method DreamAgent(name: string, live: set<int>, reply: Option<string>, w: Works) returns (outcome: Outcome)
      requires forall a :: a in dreaming ==> dreaming[a]
      modifies this
      ensures dreaming == old(dreaming)
      ensures outcome == InProgress <==> name in old(dreaming)
      ensures store == if outcome == InProgress then old(store) else DreamtOnce(old(store), name, live, reply, w)
      ensures outcome == NoOp <==> name !in old(dreaming) && Quiet(Undreamed(old(store), name), live) == []
      ensures outcome == Succeeded <==>
        && name !in old(dreaming) && Quiet(Undreamed(old(store), name), live) != [] && !Refused(old(store), name, reply)
        && w == ALL_WORK
      ensures outcome == Succeeded ==>
        var was, ids := old(store), FirstSessions(Quiet(Undreamed(old(store), name), live));
        && reply.Some? && (Blank(Memory(was, name)) || !Blank(reply.value))
        && store == Store(was.order, was.owner, was.exchanged, was.dreamed + (set id | id in ids),
                          was.memory[name := EnsureTrailingNewline(reply.value)])
      ensures outcome == Failed ==>
        (store == old(store) || w.write) && (store.dreamed == old(store).dreamed || (w.write && w.mark))
    {
      ghost var before := dreaming;
      var ok := AcquireDream(name);
      if !ok { return InProgress; }
      assert dreaming - {name} == before;
      var pending := Undreamed(store, name);
      var sessions := new int[|pending|](i requires 0 <= i < |pending| => pending[i]);
      assert sessions[..] == pending;
      var n := DropLive(sessions, live);
      if n == 0 {
        ReleaseDream(name);
        return NoOp;
      }
      var current := Memory(store, name);
      var selected := sessions[..n];
      if |selected| > MAX_SESSIONS { selected := selected[..MAX_SESSIONS]; }
      if reply.None? || (!Blank(current) && Blank(reply.value)) {
        ReleaseDream(name);
        return Failed;
      }
      ok := ApplyDream(name, selected, reply.value, w);
      ReleaseDream(name);
      outcome := if ok && w.report then Succeeded else Failed;
    }
  }

  lemma {:induction false} QuietStep(ids: seq<int>, i: nat, live: set<int>, front: seq<int>)
    requires i < |ids|
    ensures front + Quiet(ids[i..], live) ==
      if ids[i] in live then front + Quiet(ids[i + 1..], live) else (front + [ids[i]]) + Quiet(ids[i + 1..], live)
  {
    assert ids[i..][0] == ids[i] && ids[i..][1..] == ids[i + 1..];
    Assoc(front, [ids[i]], Quiet(ids[i + 1..], live));
  }

  /** dreamableSessions: the sessions kept are copied down over the ones read. */
  method DropLive(ids: array<int>, live: set<int>) returns (kept: nat)
    modifies ids
    ensures kept <= ids.Length && ids[..kept] == Quiet(old(ids[..]), live)
  {
    kept := 0;
    ghost var was := ids[..];
    for i := 0 to ids.Length
      invariant kept <= i
      invariant forall j :: i <= j < ids.Length ==> ids[j] == was[j]
      invariant Quiet(was, live) == ids[..kept] + Quiet(was[i..], live)
    {
      ghost var front := ids[..kept];
      QuietStep(was, i, live, front);
      if ids[i] !in live {
        ids[kept] := ids[i];
        kept := kept + 1;
        assert ids[..kept] == front + [was[i]];
      }
    }
    assert was[ids.Length..] == [];
  }
}
