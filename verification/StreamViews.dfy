/** The whole-turn views a streamed turn agrees with. */
module StreamViews {
  import opened Seqs
  import opened Text
  import opened StreamTurn

  // ------------------------------------------------------------- reasoning

  /** The reasoning a caller has read: the streamed deltas, one after the other. */
  function ReasoningOf(events: seq<Event>): string {
    if events == [] then ""
    else if events[0].ReasoningDelta? then events[0].text + ReasoningOf(events[1..])
    else ReasoningOf(events[1..])
  }

  lemma {:induction false} ReasoningOfAppend(a: seq<Event>, b: seq<Event>)
    ensures ReasoningOf(a + b) == ReasoningOf(a) + ReasoningOf(b)
  {
    if a == [] {
      assert a + b == b;
    } else {
      ReasoningOfAppend(a[1..], b);
      TailOfConcat(a, b);
      if a[0].ReasoningDelta? { Assoc(a[0].text, ReasoningOf(a[1..]), ReasoningOf(b)); }
    }
  }

  predicate Ends(n: Notification) {
    n.Broken? || n.Completed? || n.ErrorNote?
  }

  datatype Delta = Delta(item: string, text: string)

  /** The reasoning deltas a turn receives before it ends. */
  function Deltas(notes: seq<Notification>): seq<Delta> {
    if notes == [] || Ends(notes[0]) then []
    else if IsReasoningDelta(notes[0])
      then [Delta(notes[0].item, notes[0].text)] + Deltas(notes[1..])
    else Deltas(notes[1..])
  }

  function Apart(streamed: bool, last: string, item: string, text: string): string {
    if streamed && item != last then "\n" + text else text
  }

  /** What the loop makes of a run of deltas, given whether and for which item it streamed before. */
  function Emitted(streamed: bool, item: string, deltas: seq<Delta>): string
    decreases |deltas|
  {
    if deltas == [] then ""
    else Apart(streamed, item, deltas[0].item, deltas[0].text) + Emitted(true, deltas[0].item, deltas[1..])
  }

  lemma {:induction false} NoDeltasIn(events: seq<Event>)
    requires forall i :: 0 <= i < |events| ==> !events[i].ReasoningDelta?
    ensures ReasoningOf(events) == ""
  {
    if events != [] { NoDeltasIn(events[1..]); }
  }

  predicate IsReasoningDelta(n: Notification) {
    n.AgentDelta? && n.text != "" && IsReasoning(n.phase)
  }

  lemma HandleReasoning(t: Track, n: Notification)
    ensures var h := Handle(t, n);
      && (h.done <==> Ends(n))
      && ReasoningOf(h.events) == (if IsReasoningDelta(n) then Separated(t, n.text, n.item) else "")
      && h.track.streamedReasoning == (t.streamedReasoning || IsReasoningDelta(n))
      && h.track.lastReasoningItem == (if IsReasoningDelta(n) then n.item else t.lastReasoningItem)
  {
    var h := Handle(t, n);
    if IsReasoningDelta(n) {
      assert h.events[1..] == [];
    } else {
      NoDeltasIn(h.events);
    }
  }

  lemma {:induction false} StreamEmitsTheDeltas(t: Track, notes: seq<Notification>)
    ensures ReasoningOf(Stream(t, notes)) == Emitted(t.streamedReasoning, t.lastReasoningItem, Deltas(notes))
    decreases |notes|
  {
    if notes != [] {
      HandleReasoning(t, notes[0]);
      if !Ends(notes[0]) {
        var h := Handle(t, notes[0]);
        StreamEmitsTheDeltas(h.track, notes[1..]);
        ReasoningOfAppend(h.events, Stream(h.track, notes[1..]));
        if IsReasoningDelta(notes[0]) {
          assert Deltas(notes)[1..] == Deltas(notes[1..]);
        }
      }
    }
  }

  /** A reasoning item and the pieces its text arrived in. */
  datatype ReasoningItem = ReasoningItem(id: string, chunks: seq<string>) {
    function Text(): string { Concat(chunks) }
  }

  function Arriving(id: string, chunks: seq<string>): seq<Delta> {
    seq(|chunks|, i requires 0 <= i < |chunks| => Delta(id, chunks[i]))
  }

  /** The deltas of whole items, item after item. */
  function InOrder(items: seq<ReasoningItem>): seq<Delta> {
    if items == [] then [] else Arriving(items[0].id, items[0].chunks) + InOrder(items[1..])
  }

  function TextsOf(items: seq<ReasoningItem>): seq<string> {
    seq(|items|, i requires 0 <= i < |items| => items[i].Text())
  }

  /** Items joined with a newline only where the id changes. */
  function Glued(items: seq<ReasoningItem>): string {
    if items == [] then ""
    else if |items| == 1 then items[0].Text()
    else items[0].Text() + Apart(true, items[0].id, items[1].id, Glued(items[1..]))
  }

  function Repeats(items: seq<ReasoningItem>): nat {
    if |items| < 2 then 0
    else (if items[0].id == items[1].id then 1 else 0) + Repeats(items[1..])
  }

  lemma {:induction false} ChunksAreConcatenated(id: string, chunks: seq<string>, rest: seq<Delta>)
    ensures Emitted(true, id, Arriving(id, chunks) + rest) == Concat(chunks) + Emitted(true, id, rest)
    decreases |chunks|
  {
    var all := Arriving(id, chunks) + rest;
    if chunks == [] {
      assert all == rest;
    } else {
      ChunksAreConcatenated(id, chunks[1..], rest);
      TailOfConcat(Arriving(id, chunks), rest);
      assert Arriving(id, chunks)[1..] == Arriving(id, chunks[1..]);
      Assoc(chunks[0], Concat(chunks[1..]), Emitted(true, id, rest));
    }
  }

  /** One item's deltas come out as its text, set apart from an item with another id. */
  lemma {:induction false} FirstItemIsEmitted(streamed: bool, item: string, next: ReasoningItem, rest: seq<Delta>)
    requires next.chunks != []
    ensures Emitted(streamed, item, Arriving(next.id, next.chunks) + rest)
         == Apart(streamed, item, next.id, next.Text()) + Emitted(true, next.id, rest)
  {
    var more, tail := Concat(next.chunks[1..]), Emitted(true, next.id, rest);
    TailOfConcat(Arriving(next.id, next.chunks), rest);
    assert Arriving(next.id, next.chunks)[1..] == Arriving(next.id, next.chunks[1..]);
    ChunksAreConcatenated(next.id, next.chunks[1..], rest);
    Assoc(Apart(streamed, item, next.id, next.chunks[0]), more, tail);
    Assoc("\n", next.chunks[0], more);
  }

  lemma {:induction false} ItemsAreGlued(streamed: bool, item: string, items: seq<ReasoningItem>)
    requires forall i :: 0 <= i < |items| ==> items[i].chunks != []
    requires items != []
    ensures Emitted(streamed, item, InOrder(items)) == Apart(streamed, item, items[0].id, Glued(items))
    decreases |items|
  {
    var rest := InOrder(items[1..]);
    FirstItemIsEmitted(streamed, item, items[0], rest);
    if |items| > 1 {
      ItemsAreGlued(true, items[0].id, items[1..]);
      Assoc("\n", items[0].Text(), Apart(true, items[0].id, items[1].id, Glued(items[1..])));
    } else {
      assert rest == [];
      assert forall s: string :: s + "" == s;
    }
  }

  lemma {:induction false} GluedLosesOneNewlinePerRepeat(items: seq<ReasoningItem>)
    ensures |Glued(items)| + Repeats(items) == |Join(TextsOf(items), "\n")|
    ensures Repeats(items) == 0 ==> Glued(items) == Join(TextsOf(items), "\n")
    ensures Repeats(items) == 0 <==> forall i :: 0 <= i < |items| - 1 ==> items[i].id != items[i + 1].id
  {
    if |items| > 1 {
      GluedLosesOneNewlinePerRepeat(items[1..]);
      assert TextsOf(items)[1..] == TextsOf(items[1..]);
      if forall i :: 0 <= i < |items| - 1 ==> items[i].id != items[i + 1].id {
        assert items[0].id != items[0 + 1].id;
        forall i | 0 <= i < |items[1..]| - 1 ensures items[1..][i].id != items[1..][i + 1].id {
          assert items[i + 1].id != items[(i + 1) + 1].id;
        }
      }
      if Repeats(items) == 0 {
        forall i | 0 <= i < |items| - 1 ensures items[i].id != items[i + 1].id {
          if i > 0 { assert items[1..][i - 1].id != items[1..][(i - 1) + 1].id; }
        }
      }
    }
  }

  // --------------------------------------------------------- blank items

  predicate Says(item: ReasoningItem) {
    !Blank(item.Text())
  }

  /** The texts a completed turn reports: it leaves blank ones out. */
  function Spoken(items: seq<ReasoningItem>): seq<string> {
    if items == [] then []
    else (if Says(items[0]) then [items[0].Text()] else []) + Spoken(items[1..])
  }

  /** What the completed turn's reasoning is: those texts, a newline between any two. */
  function Joined(items: seq<ReasoningItem>): string {
    Join(Spoken(items), "\n")
  }

  /** Read item by item, two that say something always have exactly one newline between them, and nothing else is streamed. */
  predicate Parted(items: seq<ReasoningItem>) {
    items == [] ||
    (Says(items[0]) &&
     (|items| == 1 ||
      if Says(items[1]) then items[0].id != items[1].id && Parted(items[1..])
      else |items| > 2 && items[1].Text() == "\n" && items[0].id == items[1].id == items[2].id && Parted(items[2..])))
  }

  predicate BlankFits(items: seq<ReasoningItem>, i: nat)
    requires i < |items|
  {
    && 0 < i < |items| - 1 && items[i].Text() == "\n"
    && Says(items[i - 1]) && Says(items[i + 1]) && items[i - 1].id == items[i].id == items[i + 1].id
  }

  predicate NeighboursFit(items: seq<ReasoningItem>, i: nat)
    requires i + 1 < |items|
  {
    Says(items[i]) && Says(items[i + 1]) ==> items[i].id != items[i + 1].id
  }

  /**
   * Neighbouring items that say something have different ids, and a blank item
   * is a lone newline within an item: between two that say something, all three
   * with one id.
   */
  predicate OneNewlineApart(items: seq<ReasoningItem>) {
    && (forall i: nat :: i < |items| && !Says(items[i]) ==> BlankFits(items, i))
    && (forall i: nat :: i + 1 < |items| ==> NeighboursFit(items, i))
  }

  /** What is streamed after the first item. */
  function Onward(items: seq<ReasoningItem>): string
    requires items != []
  {
    if |items| == 1 then "" else Apart(true, items[0].id, items[1].id, Glued(items[1..]))
  }

  lemma {:induction false} FirstIsGlued(items: seq<ReasoningItem>)
    requires items != []
    ensures Glued(items) == items[0].Text() + Onward(items)
  {
    assert items[0].Text() + "" == items[0].Text();
  }

  lemma {:induction false} SpokenHasLead(items: seq<ReasoningItem>)
    requires items != [] && forall i :: 0 <= i < |items| ==> items[i].Text() != ""
    ensures Glued(items) != ""
    ensures Spoken(items) == [] ==> !Says(items[0])
    ensures Spoken(items) != [] && Says(items[0]) ==> Lead(Glued(items)) == Lead(Joined(items))
    ensures Spoken(items) != [] && !Says(items[0]) ==> Lead(Glued(items)) > Lead(Joined(items))
  {
    var first := items[0].Text();
    FirstIsGlued(items);
    BlankIsAllLead(first);
    LeadOfConcat(first, Onward(items));
    if Says(items[0]) {
      FirstIsSpoken(items);
      LeadOfConcat(first, AfterFirst(Spoken(items[1..])));
    } else {
      assert Spoken(items) == Spoken(items[1..]);
      if |items| > 1 {
        SpokenHasLead(items[1..]);
        LeadOfApart(items);
      }
    }
  }

  lemma LeadOfApart(items: seq<ReasoningItem>)
    requires |items| > 1
    ensures Lead(Onward(items)) == Lead(Glued(items[1..])) + if items[0].id == items[1].id then 0 else 1
  {
    LeadOfConcat("\n", Glued(items[1..]));
  }

  function AfterFirst(texts: seq<string>): string {
    if texts == [] then "" else "\n" + Join(texts, "\n")
  }

  lemma FirstIsSpoken(items: seq<ReasoningItem>)
    requires items != [] && Says(items[0])
    ensures Joined(items) == items[0].Text() + AfterFirst(Spoken(items[1..]))
  {
    var first, rest := items[0].Text(), Spoken(items[1..]);
    assert ([first] + rest)[1..] == rest;
    if rest == [] { assert first + "" == first; } else { Assoc(first, "\n", Join(rest, "\n")); }
  }

  lemma SamePrefix(a: string, b: string, c: string)
    ensures a + b == a + c <==> b == c
  {
    if a + b == a + c {
      assert b == (a + b)[|a|..] == (a + c)[|a|..] == c;
    }
  }

  lemma {:induction false} GluedIsJoinedExactly(items: seq<ReasoningItem>)
    requires forall i :: 0 <= i < |items| ==> items[i].Text() != ""
    ensures Glued(items) == Joined(items) <==> Parted(items)
    decreases |items|, 1
  {
    if items != [] {
      SpokenHasLead(items);
      if Says(items[0]) {
        FirstIsSpoken(items);
        FirstIsGlued(items);
        SamePrefix(items[0].Text(), Onward(items), AfterFirst(Spoken(items[1..])));
        if |items| > 1 {
          SpokenHasLead(items[1..]);
          if Spoken(items[1..]) == [] {
            if |items| > 2 { SpokenHasLead(items[2..]); }
          } else if Says(items[1]) {
            NextIsSpoken(items);
          } else {
            NextIsBlank(items);
          }
        }
      }
    }
  }

  lemma {:induction false} NextIsSpoken(items: seq<ReasoningItem>)
    requires |items| > 1 && Says(items[0]) && Says(items[1])
    requires forall i :: 0 <= i < |items| ==> items[i].Text() != ""
    ensures Onward(items) == AfterFirst(Spoken(items[1..])) <==> Parted(items)
    decreases |items|, 0
  {
    GluedIsJoinedExactly(items[1..]);
    SpokenHasLead(items[1..]);
    LeadOfConcat("\n", Joined(items[1..]));
    SamePrefix("\n", Glued(items[1..]), Joined(items[1..]));
  }

  /** A blank item is exactly the newline that is due if it is one, the item goes on after it, and all of it has one id. */
  lemma {:induction false} NextIsBlank(items: seq<ReasoningItem>)
    requires |items| > 1 && Says(items[0]) && !Says(items[1]) && Spoken(items[1..]) != []
    requires forall i :: 0 <= i < |items| ==> items[i].Text() != ""
    ensures Onward(items) == AfterFirst(Spoken(items[1..])) <==> Parted(items)
    decreases |items|, 0
  {
    var blank, rest := items[1].Text(), items[2..];
    assert items[1..][1..] == rest && Spoken(items[1..]) == Spoken(rest);
    GluedIsJoinedExactly(rest);
    SpokenHasLead(rest);
    BlankLead(items);
    LeadOfConcat("\n", Joined(rest));
    if |blank| == 1 && items[0].id == items[1].id == items[2].id && Says(items[2]) {
      FirstIsGlued(items[1..]);
      assert Onward(items) == blank + Glued(rest);
      OneCharThen(blank, Glued(rest), Joined(rest));
    }
  }

  lemma BlankLead(items: seq<ReasoningItem>)
    requires |items| > 2 && !Says(items[1])
    ensures Lead(Onward(items)) == Lead(Glued(items[2..])) + |items[1].Text()|
      + (if items[0].id == items[1].id then 0 else 1) + (if items[1].id == items[2].id then 0 else 1)
  {
    assert items[1..][1..] == items[2..];
    BlankIsAllLead(items[1].Text());
    LeadOfApart(items);
    FirstIsGlued(items[1..]);
    LeadOfConcat(items[1].Text(), Onward(items[1..]));
    LeadOfApart(items[1..]);
  }

  lemma OneCharThen(one: string, a: string, b: string)
    requires |one| == 1
    ensures one + a == "\n" + b <==> one == "\n" && a == b
  {
    if one + a == "\n" + b {
      assert one[0] == (one + a)[0] == ("\n" + b)[0] == '\n';
      assert one == "\n";
    }
    SamePrefix("\n", a, b);
  }

  /** What is asked of a list whose first item says something is asked of its first step, and of the rest. */
  lemma SuffixFits(items: seq<ReasoningItem>, k: nat)
    requires 1 < |items| && k <= |items| && Says(items[0]) && k == if Says(items[1]) then 1 else 2
    ensures OneNewlineApart(items) <==>
      OneNewlineApart(items[k..]) && if k == 1 then items[0].id != items[1].id else BlankFits(items, 1)
  {
    assert NeighboursFit(items, 0) <==> k == 2 || items[0].id != items[1].id;
    if OneNewlineApart(items) { RestFits(items, k); }
    if OneNewlineApart(items[k..]) && (if k == 1 then items[0].id != items[1].id else BlankFits(items, 1)) {
      WholeFits(items, k);
    }
  }

  lemma BlankShifts(items: seq<ReasoningItem>, k: nat, i: nat)
    requires i + k < |items|
    ensures BlankFits(items[k..], i) ==> BlankFits(items, i + k)
    ensures BlankFits(items, i + k) && i > 0 ==> BlankFits(items[k..], i)
  {
    var rest := items[k..];
    assert rest[i] == items[i + k];
    if i > 0 { assert rest[i - 1] == items[i + k - 1]; }
    if i + 1 < |rest| { assert rest[i + 1] == items[i + k + 1]; }
  }

  lemma NeighboursShift(items: seq<ReasoningItem>, k: nat, i: nat)
    requires i + k + 1 < |items|
    ensures NeighboursFit(items[k..], i) <==> NeighboursFit(items, i + k)
  {
  }

  lemma RestFits(items: seq<ReasoningItem>, k: nat)
    requires 1 < |items| && k <= |items| && Says(items[0]) && k == if Says(items[1]) then 1 else 2
    requires OneNewlineApart(items)
    ensures OneNewlineApart(items[k..])
    ensures k == 2 ==> BlankFits(items, 1)
  {
    var rest := items[k..];
    if k == 2 { assert BlankFits(items, 1); }
    assert rest != [] ==> Says(rest[0]);
    forall i: nat | i < |rest| && !Says(rest[i]) ensures BlankFits(rest, i) {
      assert BlankFits(items, i + k);
      BlankShifts(items, k, i);
    }
    forall i: nat | i + 1 < |rest| ensures NeighboursFit(rest, i) {
      assert NeighboursFit(items, i + k);
      NeighboursShift(items, k, i);
    }
  }

  lemma WholeFits(items: seq<ReasoningItem>, k: nat)
    requires 1 < |items| && k <= |items| && Says(items[0]) && k == if Says(items[1]) then 1 else 2
    requires OneNewlineApart(items[k..]) && if k == 1 then items[0].id != items[1].id else BlankFits(items, 1)
    ensures OneNewlineApart(items)
  {
    var rest := items[k..];
    forall i: nat | i < |items| && !Says(items[i]) ensures BlankFits(items, i) {
      if i >= k {
        assert rest[i - k] == items[i] && BlankFits(rest, i - k);
        BlankShifts(items, k, i - k);
      }
    }
    forall i: nat | i + 1 < |items| ensures NeighboursFit(items, i) {
      if i >= k {
        assert NeighboursFit(rest, i - k);
        NeighboursShift(items, k, i - k);
      }
    }
  }

  lemma {:induction false} PartedIsOneNewlineApart(items: seq<ReasoningItem>)
    ensures Parted(items) <==> OneNewlineApart(items)
    decreases |items|
  {
    if items != [] {
      if !Says(items[0]) {
        assert !BlankFits(items, 0);
      } else if |items| > 1 {
        var k := if Says(items[1]) then 1 else 2;
        if k <= |items| {
          PartedIsOneNewlineApart(items[k..]);
          SuffixFits(items, k);
        }
      }
    }
  }

  /** What streams as a delta is never empty. */
  lemma {:induction false} DeltasSaySomething(notes: seq<Notification>)
    ensures forall i :: 0 <= i < |Deltas(notes)| ==> Deltas(notes)[i].text != ""
  {
    if notes != [] && !Ends(notes[0]) { DeltasSaySomething(notes[1..]); }
  }

  lemma {:induction false} ItemsHaveText(items: seq<ReasoningItem>)
    requires forall i :: 0 <= i < |items| ==> items[i].chunks != []
    requires forall i :: 0 <= i < |InOrder(items)| ==> InOrder(items)[i].text != ""
    ensures forall i :: 0 <= i < |items| ==> items[i].Text() != ""
  {
    if items != [] {
      var first, rest := Arriving(items[0].id, items[0].chunks), InOrder(items[1..]);
      assert InOrder(items)[0] == first[0];
      forall i | 0 <= i < |rest| ensures rest[i].text != "" { assert rest[i] == InOrder(items)[|first| + i]; }
      ItemsHaveText(items[1..]);
      forall i | 0 <= i < |items| ensures items[i].Text() != "" {
        if i > 0 { assert items[i] == items[1..][i - 1]; }
      }
    }
  }

  /**
   * The reasoning a turn streams is the reasoning its completed form reports,
   * exactly when its items come out one newline apart. If none of them is
   * blank, that means that no two neighbours share an id.
   */
  lemma {:induction false} StreamedReasoningIsTheWhole(notes: seq<Notification>, items: seq<ReasoningItem>,
      completed: seq<TurnItem>)
    requires Deltas(notes) == InOrder(items)
    requires forall i :: 0 <= i < |items| ==> items[i].chunks != []
    requires Texts(completed, true) == Spoken(items)
    ensures ReasoningOf(Stream(FRESH, notes)) == WholeReasoning(completed) <==> OneNewlineApart(items)
    ensures (forall i :: 0 <= i < |items| ==> Says(items[i])) ==>
      (OneNewlineApart(items) <==> forall i :: 0 <= i < |items| - 1 ==> items[i].id != items[i + 1].id)
  {
    StreamEmitsTheDeltas(FRESH, notes);
    if items != [] { ItemsAreGlued(false, "", items); }
    DeltasSaySomething(notes);
    ItemsHaveText(items);
    GluedIsJoinedExactly(items);
    PartedIsOneNewlineApart(items);
    if forall i :: 0 <= i < |items| ==> Says(items[i]) { AllSay(items); }
  }

  lemma AllSay(items: seq<ReasoningItem>)
    requires forall i :: 0 <= i < |items| ==> Says(items[i])
    ensures OneNewlineApart(items) <==> forall i :: 0 <= i < |items| - 1 ==> items[i].id != items[i + 1].id
  {
    assert forall i: nat :: i + 1 < |items| ==> (NeighboursFit(items, i) <==> items[i].id != items[i + 1].id);
  }

  /** Such a turn: two reasoning items share an id, and the streamed text runs them together. */
  lemma ANewlineIsMissing()
    ensures var notes := [AgentDelta("x", "i", "thinking"), AgentDelta("y", "i", "thinking")];
      ReasoningOf(Stream(FRESH, notes)) == "xy"
    ensures WholeReasoning([TurnItem("agentMessage", "x", "thinking"), TurnItem("agentMessage", "y", "thinking")]) == "x\ny"
  {
    var notes := [AgentDelta("x", "i", "thinking"), AgentDelta("y", "i", "thinking")];
    assert notes[1..] == [AgentDelta("y", "i", "thinking")] && notes[1..][1..] == [];
    StreamEmitsTheDeltas(FRESH, notes);
    var deltas := [Delta("i", "x"), Delta("i", "y")];
    assert Deltas(notes) == deltas;
    assert deltas[1..] == [Delta("i", "y")] && deltas[1..][1..] == [];
    assert Emitted(true, "i", deltas[1..]) == "y" + "";
    TwoItems(TurnItem("agentMessage", "x", "thinking"), TurnItem("agentMessage", "y", "thinking"));
  }

  lemma TwoItems(a: TurnItem, b: TurnItem)
    requires a == TurnItem("agentMessage", "x", "thinking") && b == TurnItem("agentMessage", "y", "thinking")
    ensures WholeReasoning([a, b]) == "x\ny"
  {
    TrimmedIsFixed("x");
    TrimmedIsFixed("y");
    assert [a, b][1..] == [b] && [b][1..] == [];
    var texts := Texts([a, b], true);
    assert Texts([b], true) == ["y"] + Texts([], true) == ["y"];
    assert texts == ["x"] + Texts([b], true) == ["x", "y"];
    assert texts[1..] == ["y"];
    assert Join(texts, "\n") == "x" + "\n" + Join(["y"], "\n");
  }

  /** And such a one: a blank item between two others is streamed, with its own separator, and not reported. */
  lemma ABlankItemIsStreamed()
    ensures var notes := [AgentDelta("x", "i", "thinking"), AgentDelta(" ", "j", "thinking"), AgentDelta("y", "k", "thinking")];
      ReasoningOf(Stream(FRESH, notes)) == "x\n \ny"
    ensures WholeReasoning([TurnItem("agentMessage", "x", "thinking"), TurnItem("agentMessage", " ", "thinking"),
                            TurnItem("agentMessage", "y", "thinking")]) == "x\ny"
  {
    var notes := [AgentDelta("x", "i", "thinking"), AgentDelta(" ", "j", "thinking"), AgentDelta("y", "k", "thinking")];
    assert notes[1..][1..] == [AgentDelta("y", "k", "thinking")] && notes[1..][1..][1..] == [];
    StreamEmitsTheDeltas(FRESH, notes);
    assert Deltas(notes) == [Delta("i", "x"), Delta("j", " "), Delta("k", "y")];
    ThreeDeltas([Delta("i", "x"), Delta("j", " "), Delta("k", "y")]);
    BlankIsDropped(TurnItem("agentMessage", "x", "thinking"), TurnItem("agentMessage", " ", "thinking"),
                   TurnItem("agentMessage", "y", "thinking"));
    TwoItems(TurnItem("agentMessage", "x", "thinking"), TurnItem("agentMessage", "y", "thinking"));
  }

  lemma {:induction false} ThreeDeltas(deltas: seq<Delta>)
    requires deltas == [Delta("i", "x"), Delta("j", " "), Delta("k", "y")]
    ensures Emitted(false, "", deltas) == "x\n \ny"
  {
    assert deltas[1..][1..] == [Delta("k", "y")] && deltas[1..][1..][1..] == [];
    assert Emitted(true, "j", deltas[1..][1..]) == "\ny" + "";
    assert Emitted(true, "i", deltas[1..]) == "\n " + "\ny";
  }

  lemma BlankIsDropped(a: TurnItem, blank: TurnItem, b: TurnItem)
    requires blank.text == " "
    ensures WholeReasoning([a, blank, b]) == WholeReasoning([a, b])
  {
    assert " "[1..] == "";
    BlankIsAllLead(" ");
    assert [a, blank, b][1..] == [blank, b] && [blank, b][1..] == [b] && [a, b][1..] == [b];
    assert Texts([blank, b], true) == [] + Texts([b], true) == Texts([b], true);
  }

  predicate HasDelta(events: seq<Event>) {
    exists i :: 0 <= i < |events| && events[i].ReasoningDelta?
  }

  predicate HasWhole(events: seq<Event>) {
    exists i :: 0 <= i < |events| && events[i].ReasoningMessage?
  }

  lemma HandleShowsOne(t: Track, n: Notification)
    ensures var h := Handle(t, n);
      && (HasDelta(h.events) ==> IsReasoningDelta(n) && h.track.streamedReasoning)
      && (HasWhole(h.events) ==> h.done && n.Completed? && !t.streamedReasoning)
      && (t.streamedReasoning ==> h.track.streamedReasoning)
  {
  }

  lemma {:induction false} WholeOnlyWithoutDeltas(t: Track, notes: seq<Notification>)
    ensures HasWhole(Stream(t, notes)) ==> !t.streamedReasoning && !HasDelta(Stream(t, notes))
    decreases |notes|
  {
    if notes != [] {
      var h := Handle(t, notes[0]);
      HandleShowsOne(t, notes[0]);
      if !h.done {
        var rest := Stream(h.track, notes[1..]);
        WholeOnlyWithoutDeltas(h.track, notes[1..]);
        var all := h.events + rest;
        if i :| 0 <= i < |all| && all[i].ReasoningMessage? {
          assert i >= |h.events|;
          assert rest[i - |h.events|].ReasoningMessage?;
          assert !HasDelta(h.events) && !HasDelta(rest);
          assert forall j :: 0 <= j < |all| ==> all[j] == if j < |h.events| then h.events[j] else rest[j - |h.events|];
        }
      }
    }
  }

  /** Whatever arrives, and wherever the caller stops reading, no turn shows the deltas and the whole message. */
  lemma {:induction false} NeverBoth(first: seq<string>, notes: seq<Notification>, room: nat)
    ensures var out := Cut(Firsts(first) + Stream(FRESH, notes), room);
      !(HasDelta(out) && HasWhole(out))
  {
    var rest := Stream(FRESH, notes);
    var all := Firsts(first) + rest;
    WholeOnlyWithoutDeltas(FRESH, notes);
    assert forall i :: 0 <= i < |all| ==> all[i] == if i < |first| then First(first[i]) else rest[i - |first|];
  }

  // --------------------------------------------------------------- billing

  function BilledOf(events: seq<Event>): seq<TurnUsage> {
    if events == [] then []
    else if events[0].Billed? then [events[0].usage] + BilledOf(events[1..])
    else BilledOf(events[1..])
  }

  lemma {:induction false} BilledOfAppend(a: seq<Event>, b: seq<Event>)
    ensures BilledOf(a + b) == BilledOf(a) + BilledOf(b)
  {
    if a == [] {
      assert a + b == b;
    } else {
      BilledOfAppend(a[1..], b);
      TailOfConcat(a, b);
      if a[0].Billed? { Assoc([a[0].usage], BilledOf(a[1..]), BilledOf(b)); }
    }
  }

  lemma {:induction false} NoBillIn(events: seq<Event>)
    requires forall i :: 0 <= i < |events| ==> !events[i].Billed?
    ensures BilledOf(events) == []
  {
    if events != [] { NoBillIn(events[1..]); }
  }

  /** One token-usage notification: the thread's running total, and the usage of its last request. */
  datatype Reading = Reading(total: int, usage: Option<TurnUsage>)

  function Readings(notes: seq<Notification>): seq<Reading> {
    if notes == [] || Ends(notes[0]) then []
    else if notes[0].TokenUsage?
      then [Reading(TotalTokens(notes[0].total), UsageOf(notes[0].last))] + Readings(notes[1..])
    else Readings(notes[1..])
  }

  /** The total at k is positive and above every total before it. */
  predicate Advances(readings: seq<Reading>, k: nat)
    requires k < |readings|
  {
    readings[k].total > 0 && forall j :: 0 <= j < k ==> readings[j].total < readings[k].total
  }

  /** The usages at the strict left-to-right maxima of the totals. */
  function Records(readings: seq<Reading>): seq<TurnUsage> {
    if readings == [] then []
    else
      var last := |readings| - 1;
      Records(readings[..last])
      + (if Advances(readings, last) && readings[last].usage.Some? then [readings[last].usage.value] else [])
  }

  function Highest(readings: seq<Reading>): int {
    if readings == [] then 0
    else
      var before := Highest(readings[..|readings| - 1]);
      if readings[|readings| - 1].total > before then readings[|readings| - 1].total else before
  }

  lemma {:induction false} HighestBoundsAll(readings: seq<Reading>)
    ensures Highest(readings) >= 0
    ensures forall j :: 0 <= j < |readings| ==> readings[j].total <= Highest(readings)
    ensures Highest(readings) > 0 ==> exists j :: 0 <= j < |readings| && readings[j].total == Highest(readings)
  {
    if readings != [] {
      var before := readings[..|readings| - 1];
      HighestBoundsAll(before);
      if Highest(readings) > 0 && Highest(readings) == Highest(before) {
        var j :| 0 <= j < |before| && before[j].total == Highest(before);
        assert readings[j].total == Highest(readings);
      }
    }
  }

  lemma {:induction false} AdvancesIsAboveHighest(readings: seq<Reading>, next: Reading)
    ensures Advances(readings + [next], |readings|) <==> next.total > Highest(readings)
  {
    HighestBoundsAll(readings);
    var all := readings + [next];
    assert forall j :: 0 <= j < |readings| ==> all[j] == readings[j];
    if Advances(all, |readings|) && Highest(readings) > 0 {
      var j :| 0 <= j < |readings| && readings[j].total == Highest(readings);
      assert all[j].total < all[|readings|].total;
    }
  }

  lemma {:induction false} RecordsPush(readings: seq<Reading>, next: Reading)
    ensures Records(readings + [next]) ==
      Records(readings) + (if next.total > Highest(readings) && next.usage.Some? then [next.usage.value] else [])
    ensures Highest(readings + [next]) == if next.total > Highest(readings) then next.total else Highest(readings)
  {
    AdvancesIsAboveHighest(readings, next);
    assert (readings + [next])[..|readings|] == readings;
  }

  lemma HandleBills(t: Track, n: Notification)
    ensures var h := Handle(t, n);
      && (!n.TokenUsage? ==> BilledOf(h.events) == [] && h.track.lastTokenTotal == t.lastTokenTotal)
      && (n.TokenUsage? ==>
            var r := Reading(TotalTokens(n.total), UsageOf(n.last));
            && BilledOf(h.events) == (if r.total > t.lastTokenTotal && r.usage.Some? then [r.usage.value] else [])
            && h.track.lastTokenTotal == (if r.total > t.lastTokenTotal then r.total else t.lastTokenTotal))
  {
    var h := Handle(t, n);
    if n.TokenUsage? && TotalTokens(n.total) > t.lastTokenTotal && UsageOf(n.last).Some? {
      var bill := [Billed(UsageOf(n.last).value)];
      NoBillIn(Context(n.window, n.last));
      BilledOfAppend(Context(n.window, n.last), bill);
      assert BilledOf(bill) == [bill[0].usage] + BilledOf([]);
    } else {
      NoBillIn(h.events);
    }
  }

  /** The same records, found by carrying the highest total along. */
  function RecordsAbove(highest: int, readings: seq<Reading>): seq<TurnUsage>
    decreases |readings|
  {
    if readings == [] then []
    else if readings[0].total > highest then
      (if readings[0].usage.Some? then [readings[0].usage.value] else []) + RecordsAbove(readings[0].total, readings[1..])
    else RecordsAbove(highest, readings[1..])
  }

  lemma {:induction false} StreamBillsAbove(t: Track, notes: seq<Notification>)
    ensures BilledOf(Stream(t, notes)) == RecordsAbove(t.lastTokenTotal, Readings(notes))
    decreases |notes|
  {
    if notes != [] {
      HandleBills(t, notes[0]);
      var h := Handle(t, notes[0]);
      if !h.done {
        StreamBillsAbove(h.track, notes[1..]);
        BilledOfAppend(h.events, Stream(h.track, notes[1..]));
        if notes[0].TokenUsage? { assert Readings(notes)[1..] == Readings(notes[1..]); }
      }
    }
  }

  lemma {:induction false} CarryingTheHighestIsEnough(seen: seq<Reading>, rest: seq<Reading>)
    ensures Records(seen + rest) == Records(seen) + RecordsAbove(Highest(seen), rest)
    decreases |rest|
  {
    if rest == [] {
      assert seen + rest == seen;
    } else {
      RecordsPush(seen, rest[0]);
      CarryingTheHighestIsEnough(seen + [rest[0]], rest[1..]);
      assert rest == [rest[0]] + rest[1..];
      Assoc(seen, [rest[0]], rest[1..]);
      var counted := if rest[0].total > Highest(seen) && rest[0].usage.Some? then [rest[0].usage.value] else [];
      Assoc(Records(seen), counted, RecordsAbove(Highest(seen + [rest[0]]), rest[1..]));
    }
  }

  /** A turn bills exactly the requests whose notification advanced the thread's running total. */
  lemma {:induction false} BillsAreTheRecords(notes: seq<Notification>)
    ensures BilledOf(Stream(FRESH, notes)) == Records(Readings(notes))
  {
    StreamBillsAbove(FRESH, notes);
    CarryingTheHighestIsEnough([], Readings(notes));
    assert [] + Readings(notes) == Readings(notes);
  }

  lemma {:induction false} StaleReadingsDoNotCount(before: seq<Reading>, stale: Reading, after: seq<Reading>)
    requires stale.total <= Highest(before)
    ensures Records(before + [stale] + after) == Records(before + after)
    ensures Highest(before + [stale] + after) == Highest(before + after)
    decreases |after|
  {
    if after == [] {
      RecordsPush(before, stale);
      assert before + [stale] + after == before + [stale] && before + after == before;
    } else {
      var shorter, last := after[..|after| - 1], after[|after| - 1];
      StaleReadingsDoNotCount(before, stale, shorter);
      RecordsPush(before + [stale] + shorter, last);
      RecordsPush(before + shorter, last);
      assert before + [stale] + after == (before + [stale] + shorter) + [last];
      assert before + after == (before + shorter) + [last];
    }
  }

  lemma {:induction false} ReadingsSplit(a: seq<Notification>, b: seq<Notification>)
    requires forall i :: 0 <= i < |a| ==> !Ends(a[i])
    ensures Readings(a + b) == Readings(a) + Readings(b)
  {
    if a == [] {
      assert a + b == b;
    } else {
      ReadingsSplit(a[1..], b);
      TailOfConcat(a, b);
    }
  }

  /** What arrives after the notification that ends a turn changes nothing. */
  lemma {:induction false} NothingAfterTheEnd(t: Track, before: seq<Notification>, after: seq<Notification>)
    requires exists i :: 0 <= i < |before| && Ends(before[i])
    ensures Stream(t, before + after) == Stream(t, before)
    decreases |before|
  {
    TailOfConcat(before, after);
    HandleReasoning(t, before[0]);
    if !Ends(before[0]) {
      var i :| 0 <= i < |before| && Ends(before[i]);
      assert before[1..][i - 1] == before[i];
      NothingAfterTheEnd(Handle(t, before[0]).track, before[1..], after);
    }
  }

  /**
   * A token-usage notification that repeats or falls behind an earlier total, or
   * comes after the turn has ended, changes no bill, wherever it arrives.
   */
  lemma {:induction false} RepeatsAreNotBilled(before: seq<Notification>, repeat: Notification, after: seq<Notification>)
    requires repeat.TokenUsage?
    requires TotalTokens(repeat.total) <= Highest(Readings(before)) || exists i :: 0 <= i < |before| && Ends(before[i])
    ensures BilledOf(Stream(FRESH, before + [repeat] + after)) == BilledOf(Stream(FRESH, before + after))
  {
    if exists i :: 0 <= i < |before| && Ends(before[i]) {
      Assoc(before, [repeat], after);
      NothingAfterTheEnd(FRESH, before, [repeat] + after);
      NothingAfterTheEnd(FRESH, before, after);
    } else {
      RepeatsBeforeTheEnd(before, repeat, after);
    }
  }

  lemma {:induction false} RepeatsBeforeTheEnd(before: seq<Notification>, repeat: Notification, after: seq<Notification>)
    requires repeat.TokenUsage? && TotalTokens(repeat.total) <= Highest(Readings(before))
    requires forall i :: 0 <= i < |before| ==> !Ends(before[i])
    ensures BilledOf(Stream(FRESH, before + [repeat] + after)) == BilledOf(Stream(FRESH, before + after))
  {
    var stale := Reading(TotalTokens(repeat.total), UsageOf(repeat.last));
    BillsAreTheRecords(before + [repeat] + after);
    BillsAreTheRecords(before + after);
    ReadingsSplit(before, after);
    StaleReadingsDoNotCount(Readings(before), stale, Readings(after));
    assert Readings(before + [repeat] + after) == Readings(before) + [stale] + Readings(after) by {
      Assoc(before, [repeat], after);
      ReadingsSplit(before, [repeat] + after);
      TailOfConcat([repeat], after);
      Assoc(Readings(before), [stale], Readings(after));
    }
  }
}
