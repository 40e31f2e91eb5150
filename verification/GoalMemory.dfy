/**
 * A goal's working memory: a document of items that review runs patch, and that
 * a repair rebuilds from saved history. This module holds the documents and
 * what one patch or one repair makes of them; MemoryStore holds the runs.
 */
module GoalMemory {
  import opened Seqs
  import opened Text

  const MAX_BYTES: nat := 32 * 1024
  const MAX_STATE: nat := 240
  const MAX_STEP: nat := 180
  const MAX_TITLE: nat := 120
  const MAX_DETAIL: nat := 240
  const MAX_OUTCOME: nat := 240
  const MAX_ID: nat := 80
  const MAX_STEPS: nat := 20
  const MAX_REBUILT: nat := 40
  const REBUILT: string := "Memory rebuilt from Podiom's saved goal history. The next review will verify and update it."

  datatype Kind = Milestone | Decision | Rejected | Risk | Artifact | UnknownKind(name: string)

  datatype Item = Item(
    id: string, kind: Kind, title: string, detail: string, rationale: string, evidence: string,
    url: string, source: string, retired: bool, reason: string)

  datatype Document = Document(currentState: string, plan: seq<string>, items: seq<Item>)

  datatype Upsert = Upsert(
    id: string, kind: Kind, title: string, detail: string, rationale: string, evidence: string, url: string)

  datatype Retirement = Retirement(id: string, reason: string)

  datatype MemoryError =
    | NotTheLeadRun
    | BadText(field: string)
    | BadKind
    | UnknownItem(id: string)
    | Unreadable
    | Stale
    | TooManySteps
    | FeedbackNeedsItems(event: int)
    | NotNewer(event: int)
    | BadDisposition(event: int)
    | NotOrdinaryFeedback(event: int)
    | TooLarge
    | NotBlocked
    | NotConfirmed

  /** checkText: the trimmed text is short enough, and present if it must be. */
  predicate TextOk(value: string, limit: nat, required: bool) {
    (required ==> Trim(value) != "") && |Trim(value)| <= limit
  }

  // ------------------------------------------------------------ the merge

  function Ids(items: seq<Item>): (r: seq<string>)
    ensures |r| == |items|
    ensures forall i :: 0 <= i < |items| ==> r[i] == items[i].id
  {
    seq(|items|, i requires 0 <= i < |items| => items[i].id)
  }

  function UpsertError(u: Upsert): Option<MemoryError> {
    if !TextOk(u.id, MAX_ID, true) then Some(BadText("memory item id"))
    else if u.kind.UnknownKind? then Some(BadKind)
    else if !TextOk(u.title, MAX_TITLE, true) then Some(BadText("memory item title"))
    else if !TextOk(u.detail, MAX_DETAIL, false) || !TextOk(u.rationale, MAX_DETAIL, false)
         || !TextOk(u.evidence, MAX_DETAIL, false) then Some(BadText("memory item detail"))
    else None
  }

  function ItemOf(u: Upsert, run: string): Item {
    Item(Trim(u.id), u.kind, Trim(u.title), Trim(u.detail), Trim(u.rationale), Trim(u.evidence),
         Trim(u.url), run, false, "")
  }

  function Retire(item: Item, r: Retirement, run: string): Item {
    item.(retired := true, reason := Trim(r.reason), source := run)
  }

  /** Puts an item where its id already is, or else at the end. */
  function Put(items: seq<Item>, item: Item): seq<Item> {
    if item.id in Ids(items)
    then seq(|items|, i requires 0 <= i < |items| => if items[i].id == item.id then item else items[i])
    else items + [item]
  }

  function PutAll(items: seq<Item>, news: seq<Item>): seq<Item>
    decreases |news|
  {
    if news == [] then items else PutAll(Put(items, news[0]), news[1..])
  }

  /** The items a patch's upserts stand for. */
  function ItemsOf(upserts: seq<Upsert>, run: string): (r: seq<Item>)
    ensures |r| == |upserts|
  {
    seq(|upserts|, i requires 0 <= i < |upserts| => ItemOf(upserts[i], run))
  }

  function FirstUpsertError(upserts: seq<Upsert>): Option<MemoryError> {
    if upserts == [] then None
    else if UpsertError(upserts[0]).Some? then UpsertError(upserts[0])
    else FirstUpsertError(upserts[1..])
  }

  function RetireAt(items: seq<Item>, r: Retirement, run: string): (res: seq<Item>)
    ensures Ids(res) == Ids(items)
  {
    seq(|items|, i requires 0 <= i < |items| => if items[i].id == Trim(r.id) then Retire(items[i], r, run) else items[i])
  }

  function RetireAll(items: seq<Item>, retirements: seq<Retirement>, run: string): Result<seq<Item>, MemoryError>
    decreases |retirements|
  {
    if retirements == [] then Ok(items)
    else
      var r := retirements[0];
      if Trim(r.id) !in Ids(items) then Err(UnknownItem(r.id))
      else if !TextOk(r.reason, MAX_DETAIL, true) then Err(BadText("retirement reason"))
      else RetireAll(RetireAt(items, r, run), retirements[1..], run)
  }

  /** The last item with this id. */
  function Latest(items: seq<Item>, id: string): (r: Item)
    requires id in Ids(items)
    ensures r.id == id && r in items
  {
    if items[|items| - 1].id == id then items[|items| - 1]
    else
      assert exists i :: 0 <= i < |items| - 1 && Ids(items)[i] == id;
      assert forall i :: 0 <= i < |items| - 1 ==> Ids(items[..|items| - 1])[i] == Ids(items)[i];
      Latest(items[..|items| - 1], id)
  }

  /** A document's items as the map holds them: where an id repeats, the last one counts. */
  function LastWins(items: seq<Item>): seq<Item> {
    seq(|items|, i requires 0 <= i < |items| => assert Ids(items)[i] in Ids(items); Latest(items, items[i].id))
  }

  /** An ordered map: the document's items, patched by the upserts and then the retirements, in order. */
  function Merge(items: seq<Item>, upserts: seq<Upsert>, retirements: seq<Retirement>, run: string): Result<seq<Item>, MemoryError> {
    if FirstUpsertError(upserts).Some? then Err(FirstUpsertError(upserts).value)
    else RetireAll(PutAll(LastWins(items), ItemsOf(upserts, run)), retirements, run)
  }

  /** A map and an order list stand for a list of items. */
  ghost predicate Stands(byId: map<string, Item>, order: seq<string>, items: seq<Item>) {
    && order == Ids(items)
    && (forall i :: 0 <= i < |items| ==> items[i].id in byId && byId[items[i].id] == items[i])
    && (forall id :: id in byId ==> id in order)
  }

  lemma PutStands(byId: map<string, Item>, order: seq<string>, items: seq<Item>, item: Item)
    requires Stands(byId, order, items)
    ensures Stands(byId[item.id := item], if item.id in byId then order else order + [item.id], Put(items, item))
  {
    assert item.id in byId <==> item.id in order by {
      if item.id in order {
        var i :| 0 <= i < |order| && order[i] == item.id;
        assert items[i].id == item.id;
      }
    }
    var put := Put(items, item);
    if item.id in byId {
      assert Ids(put) == order;
    } else {
      assert Ids(put) == order + [item.id];
      assert forall i :: 0 <= i < |items| ==> items[i].id != item.id;
    }
  }

  /** The first loop: a document's items into a map and an order list. */
  method IndexItems(items: seq<Item>) returns (byId: map<string, Item>, order: seq<string>)
    ensures Stands(byId, order, LastWins(items))
  {
    byId, order := map[], [];
    for i := 0 to |items|
      invariant order == Ids(items[..i])
      invariant forall id :: id in byId <==> id in order
      invariant forall id :: id in byId ==> byId[id] == Latest(items[..i], id)
    {
      assert items[..i + 1][..i] == items[..i];
      byId := byId[items[i].id := items[i]];
      order := order + [items[i].id];
      assert order == Ids(items[..i + 1]);
    }
    assert items[..|items|] == items;
    var now := LastWins(items);
    forall i | 0 <= i < |now| ensures now[i].id == items[i].id && now[i].id in byId && byId[now[i].id] == now[i] {
      assert Ids(items)[i] in order;
    }
    assert order == Ids(now);
  }

  /** The second loop, over the upserts. */
  method UpsertItems(byId0: map<string, Item>, order0: seq<string>, ghost start: seq<Item>, upserts: seq<Upsert>, run: string)
    returns (bad: Option<MemoryError>, byId: map<string, Item>, order: seq<string>)
    requires Stands(byId0, order0, start)
    ensures bad == FirstUpsertError(upserts)
    ensures bad.None? ==> Stands(byId, order, PutAll(start, ItemsOf(upserts, run)))
  {
    byId, order := byId0, order0;
    ghost var now := start;
    ghost var news := ItemsOf(upserts, run);
    for i := 0 to |upserts|
      invariant Stands(byId, order, now)
      invariant FirstUpsertError(upserts) == FirstUpsertError(upserts[i..])
      invariant PutAll(start, news) == PutAll(now, news[i..])
    {
      assert upserts[i..][0] == upserts[i] && upserts[i..][1..] == upserts[i + 1..];
      bad := UpsertError(upserts[i]);
      if bad.Some? { return; }
      var item := ItemOf(upserts[i], run);
      assert news[i..][0] == item && news[i..][1..] == news[i + 1..];
      PutStands(byId, order, now, item);
      if item.id !in byId { order := order + [item.id]; }
      byId := byId[item.id := item];
      now := Put(now, item);
    }
    bad := None;
  }

  /** The third loop, over the retirements. */
  method RetireItems(byId0: map<string, Item>, order: seq<string>, ghost start: seq<Item>, retirements: seq<Retirement>, run: string)
    returns (bad: Option<MemoryError>, byId: map<string, Item>)
    requires Stands(byId0, order, start)
    ensures bad.Some? ==> RetireAll(start, retirements, run) == Err(bad.value)
    ensures bad.None? ==> RetireAll(start, retirements, run).Ok? && Stands(byId, order, RetireAll(start, retirements, run).value)
  {
    byId := byId0;
    ghost var now := start;
    for i := 0 to |retirements|
      invariant Stands(byId, order, now)
      invariant RetireAll(start, retirements, run) == RetireAll(now, retirements[i..], run)
    {
      var t := retirements[i];
      assert retirements[i..][0] == t && retirements[i..][1..] == retirements[i + 1..];
      assert forall id :: id in Ids(now) ==> id in byId;
      if Trim(t.id) !in byId { return Some(UnknownItem(t.id)), byId; }
      if !TextOk(t.reason, MAX_DETAIL, true) { return Some(BadText("retirement reason")), byId; }
      byId := byId[byId[Trim(t.id)].id := Retire(byId[Trim(t.id)], t, run)];
      now := RetireAt(now, t, run);
    }
    bad := None;
  }

  /** The rebuild of the item list. */
  method RebuildItems(byId: map<string, Item>, order: seq<string>, ghost items: seq<Item>) returns (rebuilt: seq<Item>)
    requires Stands(byId, order, items)
    ensures rebuilt == items
  {
    rebuilt := [];
    for i := 0 to |order|
      invariant rebuilt == items[..i]
    {
      rebuilt := rebuilt + [byId[order[i]]];
    }
  }

  /** The loops of CommitGoalMemory over a map and an order list, one after the other. */
  method MergeItems(items: seq<Item>, upserts: seq<Upsert>, retirements: seq<Retirement>, run: string)
    returns (r: Result<seq<Item>, MemoryError>)
    ensures r == Merge(items, upserts, retirements, run)
  {
    var byId, order := IndexItems(items);
    var bad;
    bad, byId, order := UpsertItems(byId, order, LastWins(items), upserts, run);
    if bad.Some? { return Err(bad.value); }
    ghost var put := PutAll(LastWins(items), ItemsOf(upserts, run));
    bad, byId := RetireItems(byId, order, put, retirements, run);
    if bad.Some? { return Err(bad.value); }
    var rebuilt := RebuildItems(byId, order, RetireAll(put, retirements, run).value);
    r := Ok(rebuilt);
  }

  // ------------------------------------------------- what a merge guarantees

  /** The mentioned ids not seen before, each once, in the order of their first mention. */
  function FirstMentions(seen: seq<string>, ids: seq<string>): seq<string>
    decreases |ids|
  {
    if ids == [] then []
    else if ids[0] in seen then FirstMentions(seen, ids[1..])
    else [ids[0]] + FirstMentions(seen + [ids[0]], ids[1..])
  }

  lemma PutIds(items: seq<Item>, item: Item)
    ensures Ids(Put(items, item)) == if item.id in Ids(items) then Ids(items) else Ids(items) + [item.id]
  {
  }

  lemma {:induction false} PutAllIds(items: seq<Item>, news: seq<Item>)
    ensures Ids(PutAll(items, news)) == Ids(items) + FirstMentions(Ids(items), Ids(news))
    decreases |news|
  {
    if news == [] {
      assert Ids(items) + [] == Ids(items);
    } else {
      var next := Put(items, news[0]);
      PutIds(items, news[0]);
      PutAllIds(next, news[1..]);
      assert Ids(news)[1..] == Ids(news[1..]);
      if news[0].id !in Ids(items) {
        Assoc(Ids(items), [news[0].id], FirstMentions(Ids(next), Ids(news[1..])));
      }
    }
  }

  lemma {:induction false} RetireAllIds(items: seq<Item>, retirements: seq<Retirement>, run: string)
    requires RetireAll(items, retirements, run).Ok?
    ensures Ids(RetireAll(items, retirements, run).value) == Ids(items)
    decreases |retirements|
  {
    if retirements != [] {
      RetireAllIds(RetireAt(items, retirements[0], run), retirements[1..], run);
    }
  }

  /** Where ids are unique, the map loses nothing. */
  lemma {:induction false} LatestIsIt(items: seq<Item>, i: nat)
    requires Distinct(Ids(items)) && i < |items|
    ensures Ids(items)[i] in Ids(items) && Latest(items, items[i].id) == items[i]
  {
    assert Ids(items)[i] in Ids(items);
    if i < |items| - 1 {
      var front := items[..|items| - 1];
      assert Ids(items)[i] != Ids(items)[|items| - 1];
      forall j, k | 0 <= j < k < |front| ensures Ids(front)[j] != Ids(front)[k] {
        assert Ids(front)[j] == Ids(items)[j] && Ids(front)[k] == Ids(items)[k];
      }
      LatestIsIt(front, i);
    }
  }

  lemma LastWinsKeepsDistinct(items: seq<Item>)
    requires Distinct(Ids(items))
    ensures LastWins(items) == items
  {
    forall i | 0 <= i < |items| ensures LastWins(items)[i] == items[i] { LatestIsIt(items, i); }
  }

  lemma {:induction false} FirstMentionsAreNew(seen: seq<string>, ids: seq<string>)
    requires Distinct(seen)
    ensures Distinct(seen + FirstMentions(seen, ids))
    decreases |ids|
  {
    if ids == [] {
      assert seen + [] == seen;
    } else if ids[0] in seen {
      FirstMentionsAreNew(seen, ids[1..]);
    } else {
      FirstMentionsAreNew(seen + [ids[0]], ids[1..]);
      Assoc(seen, [ids[0]], FirstMentions(seen + [ids[0]], ids[1..]));
    }
  }

  /**
   * A merge keeps every id where it was and appends the new ones in the order
   * they were first mentioned: ids stay unique, and retiring never deletes.
   */
  lemma MergeKeepsAndAppendsIds(items: seq<Item>, upserts: seq<Upsert>, retirements: seq<Retirement>, run: string)
    requires Distinct(Ids(items)) && Merge(items, upserts, retirements, run).Ok?
    ensures var merged := Merge(items, upserts, retirements, run).value;
      && Ids(merged) == Ids(items) + FirstMentions(Ids(items), Ids(ItemsOf(upserts, run)))
      && Distinct(Ids(merged))
  {
    var news := ItemsOf(upserts, run);
    LastWinsKeepsDistinct(items);
    PutAllIds(items, news);
    RetireAllIds(PutAll(items, news), retirements, run);
    FirstMentionsAreNew(Ids(items), Ids(news));
  }

  /** The last of some items with this id. */
  function LastNamed(items: seq<Item>, id: string): Option<Item> {
    if items == [] then None
    else
      var later := LastNamed(items[1..], id);
      if later.Some? then later else if items[0].id == id then Some(items[0]) else None
  }

  function LastRetirement(retirements: seq<Retirement>, id: string): Option<Retirement> {
    if retirements == [] then None
    else
      var later := LastRetirement(retirements[1..], id);
      if later.Some? then later else if Trim(retirements[0].id) == id then Some(retirements[0]) else None
  }

  /** What a patch makes of one item: its last upsert, if any, and then its last retirement, if any. */
  function Patched(before: Option<Item>, id: string, news: seq<Item>, retirements: seq<Retirement>, run: string): Option<Item> {
    var put := if LastNamed(news, id).Some? then LastNamed(news, id) else before;
    if put.Some? && LastRetirement(retirements, id).Some?
    then Some(Retire(put.value, LastRetirement(retirements, id).value, run)) else put
  }

  /** The item a list has under an id, the first if there are several. */
  function Find(items: seq<Item>, id: string): Option<Item> {
    if items == [] then None
    else if items[0].id == id then Some(items[0])
    else Find(items[1..], id)
  }

  lemma {:induction false} FindAt(items: seq<Item>, id: string)
    ensures Find(items, id).Some? <==> id in Ids(items)
    ensures Find(items, id).Some? ==> Find(items, id).value in items && Find(items, id).value.id == id
  {
    if items != [] {
      FindAt(items[1..], id);
      assert Ids(items) == [items[0].id] + Ids(items[1..]);
    }
  }

  lemma {:induction false} FindPushed(items: seq<Item>, item: Item, id: string)
    ensures Find(items + [item], id) == if Find(items, id).Some? then Find(items, id) else if item.id == id then Some(item) else None
  {
    if items == [] {
      assert items + [item] == [item];
    } else {
      FindPushed(items[1..], item, id);
      TailOfConcat(items, [item]);
    }
  }

  /** A list changed only in what its items hold: looking an id up finds the changed item. */
  lemma {:induction false} FindChanged(items: seq<Item>, changed: seq<Item>, id: string, change: Item -> Item)
    requires Ids(changed) == Ids(items)
    requires forall i :: 0 <= i < |items| && items[i].id == id ==> changed[i] == change(items[i])
    ensures Find(changed, id) == if Find(items, id).Some? then Some(change(Find(items, id).value)) else None
  {
    if items != [] {
      assert changed[0].id == Ids(changed)[0] == Ids(items)[0];
      assert Ids(changed)[1..] == Ids(changed[1..]) && Ids(items)[1..] == Ids(items[1..]);
      FindChanged(items[1..], changed[1..], id, change);
    }
  }

  lemma {:induction false} FindAfterPut(items: seq<Item>, item: Item, id: string)
    ensures Find(Put(items, item), id) == if item.id == id then Some(item) else Find(items, id)
  {
    PutIds(items, item);
    FindAt(items, id);
    if item.id !in Ids(items) {
      FindPushed(items, item, id);
    } else if item.id == id {
      FindChanged(items, Put(items, item), id, _ => item);
    } else {
      FindChanged(items, Put(items, item), id, (x: Item) => x);
    }
  }

  lemma {:induction false} FindAfterRetire(items: seq<Item>, r: Retirement, run: string, id: string)
    ensures Find(RetireAt(items, r, run), id) ==
      if Trim(r.id) == id && Find(items, id).Some? then Some(Retire(Find(items, id).value, r, run)) else Find(items, id)
  {
    if Trim(r.id) == id {
      FindChanged(items, RetireAt(items, r, run), id, (x: Item) => Retire(x, r, run));
    } else {
      FindChanged(items, RetireAt(items, r, run), id, (x: Item) => x);
    }
  }

  lemma {:induction false} FindAfterPuts(items: seq<Item>, news: seq<Item>, id: string)
    ensures Find(PutAll(items, news), id) == if LastNamed(news, id).Some? then LastNamed(news, id) else Find(items, id)
    decreases |news|
  {
    if news != [] {
      FindAfterPuts(Put(items, news[0]), news[1..], id);
      FindAfterPut(items, news[0], id);
    }
  }

  lemma RetireTwice(item: Item, first: Retirement, second: Retirement, run: string)
    ensures Retire(Retire(item, first, run), second, run) == Retire(item, second, run)
  {
  }

  lemma {:induction false} FindAfterRetires(items: seq<Item>, retirements: seq<Retirement>, run: string, id: string)
    requires RetireAll(items, retirements, run).Ok?
    ensures Find(RetireAll(items, retirements, run).value, id) == Patched(Find(items, id), id, [], retirements, run)
    decreases |retirements|
  {
    if retirements != [] {
      var r, rest := retirements[0], retirements[1..];
      var next := RetireAt(items, r, run);
      FindAfterRetires(next, rest, run, id);
      FindAfterRetire(items, r, run, id);
      assert RetireAll(items, retirements, run) == RetireAll(next, rest, run);
      if LastRetirement(rest, id).Some? && Trim(r.id) == id && Find(items, id).Some? {
        RetireTwice(Find(items, id).value, r, LastRetirement(rest, id).value, run);
      }
    }
  }

  /**
   * What a merge leaves under any id is that id's last upsert, or else what was
   * there, retired by its last retirement if it has one. An id no upsert and no
   * retirement names keeps its item untouched.
   */
  lemma {:induction false} MergePatchesEachItem(items: seq<Item>, upserts: seq<Upsert>,
      retirements: seq<Retirement>, run: string, id: string)
    requires Distinct(Ids(items)) && Merge(items, upserts, retirements, run).Ok?
    ensures Find(Merge(items, upserts, retirements, run).value, id)
         == Patched(Find(items, id), id, ItemsOf(upserts, run), retirements, run)
    ensures LastNamed(ItemsOf(upserts, run), id).None? && LastRetirement(retirements, id).None? ==>
      Find(Merge(items, upserts, retirements, run).value, id) == Find(items, id)
  {
    LastWinsKeepsDistinct(items);
    FindAfterPuts(items, ItemsOf(upserts, run), id);
    FindAfterRetires(PutAll(items, ItemsOf(upserts, run)), retirements, run, id);
  }

  // ----------------------------------------- a merge, patch entry by patch entry

  predicate LastUpsert(upserts: seq<Upsert>, id: string, k: nat) {
    && k < |upserts| && Trim(upserts[k].id) == id
    && forall j :: k < j < |upserts| ==> Trim(upserts[j].id) != id
  }

  predicate Unmentioned(upserts: seq<Upsert>, id: string) {
    forall j :: 0 <= j < |upserts| ==> Trim(upserts[j].id) != id
  }

  predicate LastRetiring(retirements: seq<Retirement>, id: string, k: nat) {
    && k < |retirements| && Trim(retirements[k].id) == id
    && forall j :: k < j < |retirements| ==> Trim(retirements[j].id) != id
  }

  predicate Unretired(retirements: seq<Retirement>, id: string) {
    forall j :: 0 <= j < |retirements| ==> Trim(retirements[j].id) != id
  }

  /** What the item says is what the upsert says, without the spaces around it. */
  predicate Tells(x: Item, u: Upsert) {
    && x.kind == u.kind && x.title == Trim(u.title) && x.detail == Trim(u.detail) && x.rationale == Trim(u.rationale)
    && x.evidence == Trim(u.evidence) && x.url == Trim(u.url)
  }

  predicate SameText(x: Item, y: Item) {
    && x.id == y.id && x.kind == y.kind && x.title == y.title && x.detail == y.detail && x.rationale == y.rationale
    && x.evidence == y.evidence && x.url == y.url
  }

  /**
   * Where an item of the merged list comes from. It says what its last upsert
   * says, or else what the old item under its id said. It is retired, for the
   * reason given last, exactly if a retirement names it or it was and no upsert
   * names it; and its source is this run if anything names it.
   */
  ghost predicate CameFrom(olds: seq<Item>, upserts: seq<Upsert>, retirements: seq<Retirement>, run: string, x: Item) {
    && (forall k: nat :: LastUpsert(upserts, x.id, k) ==> Tells(x, upserts[k]))
    && (Unmentioned(upserts, x.id) ==> exists j :: 0 <= j < |olds| && SameText(x, olds[j]))
    && (forall k: nat :: LastRetiring(retirements, x.id, k) ==>
          x.retired && x.reason == Trim(retirements[k].reason) && x.source == run)
    && (Unretired(retirements, x.id) ==>
          && (forall k: nat :: LastUpsert(upserts, x.id, k) ==> !x.retired && x.reason == "" && x.source == run)
          && (Unmentioned(upserts, x.id) ==> x in olds))
  }

  lemma {:induction false} NoneNamed(items: seq<Item>, id: string)
    ensures LastNamed(items, id).None? <==> forall j :: 0 <= j < |items| ==> items[j].id != id
  {
    if items != [] {
      NoneNamed(items[1..], id);
      assert forall j :: 1 <= j < |items| ==> items[j] == items[1..][j - 1];
      assert forall j :: 0 <= j < |items[1..]| ==> items[1..][j] == items[j + 1];
    }
  }

  lemma {:induction false} LastIsNamed(items: seq<Item>, id: string, k: nat)
    requires k < |items| && items[k].id == id && forall j :: k < j < |items| ==> items[j].id != id
    ensures LastNamed(items, id) == Some(items[k])
  {
    assert forall j :: 0 <= j < |items[1..]| ==> items[1..][j] == items[j + 1];
    if k == 0 { NoneNamed(items[1..], id); } else { LastIsNamed(items[1..], id, k - 1); }
  }

  lemma {:induction false} NotNamed(upserts: seq<Upsert>, run: string, id: string)
    ensures Unmentioned(upserts, id) <==> LastNamed(ItemsOf(upserts, run), id).None?
  {
    var news := ItemsOf(upserts, run);
    NoneNamed(news, id);
    assert forall j :: 0 <= j < |upserts| ==> news[j].id == Trim(upserts[j].id);
  }

  lemma {:induction false} NamedLast(upserts: seq<Upsert>, run: string, id: string, k: nat)
    requires LastUpsert(upserts, id, k)
    ensures LastNamed(ItemsOf(upserts, run), id) == Some(ItemOf(upserts[k], run))
  {
    LastIsNamed(ItemsOf(upserts, run), id, k);
  }

  lemma {:induction false} NotRetired(retirements: seq<Retirement>, id: string)
    ensures Unretired(retirements, id) <==> LastRetirement(retirements, id).None?
  {
    if retirements != [] {
      var rest := retirements[1..];
      NotRetired(rest, id);
      assert forall j :: 0 <= j < |rest| ==> rest[j] == retirements[j + 1];
      assert forall j :: 1 <= j < |retirements| ==> retirements[j] == rest[j - 1];
    }
  }

  lemma {:induction false} RetiredLast(retirements: seq<Retirement>, id: string, k: nat)
    requires LastRetiring(retirements, id, k)
    ensures LastRetirement(retirements, id) == Some(retirements[k])
  {
    var rest := retirements[1..];
    assert forall j :: 0 <= j < |rest| ==> rest[j] == retirements[j + 1];
    if k == 0 { NotRetired(rest, id); } else { RetiredLast(rest, id, k - 1); }
  }

  /** Where ids are unique, an id leads to its item. */
  lemma {:induction false} FindIsIt(items: seq<Item>, i: nat)
    requires Distinct(Ids(items)) && i < |items|
    ensures Find(items, items[i].id) == Some(items[i])
  {
    if i > 0 {
      assert Ids(items)[0] != Ids(items)[i];
      assert Ids(items)[1..] == Ids(items[1..]);
      FindIsIt(items[1..], i - 1);
    }
  }

  lemma {:induction false} PatchedCameFrom(olds: seq<Item>, upserts: seq<Upsert>,
      retirements: seq<Retirement>, run: string, x: Item)
    requires Patched(Find(olds, x.id), x.id, ItemsOf(upserts, run), retirements, run) == Some(x)
    ensures CameFrom(olds, upserts, retirements, run, x)
  {
    var id := x.id;
    NotNamed(upserts, run, id);
    NotRetired(retirements, id);
    FindAt(olds, id);
    forall k: nat | LastUpsert(upserts, id, k) ensures LastNamed(ItemsOf(upserts, run), id) == Some(ItemOf(upserts[k], run)) {
      NamedLast(upserts, run, id, k);
    }
    forall k: nat | LastRetiring(retirements, id, k) ensures LastRetirement(retirements, id) == Some(retirements[k]) {
      RetiredLast(retirements, id, k);
    }
    if Unmentioned(upserts, id) {
      var j :| 0 <= j < |olds| && olds[j] == Find(olds, id).value;
      assert SameText(x, olds[j]);
    }
  }

  /** Every item of an accepted merge comes from what was there and what the patch says. */
  lemma MergedItemsCameFrom(items: seq<Item>, upserts: seq<Upsert>, retirements: seq<Retirement>, run: string)
    requires Distinct(Ids(items)) && Merge(items, upserts, retirements, run).Ok?
    ensures var merged := Merge(items, upserts, retirements, run).value;
      forall i :: 0 <= i < |merged| ==> CameFrom(items, upserts, retirements, run, merged[i])
  {
    var merged := Merge(items, upserts, retirements, run).value;
    MergeKeepsAndAppendsIds(items, upserts, retirements, run);
    forall i | 0 <= i < |merged| ensures CameFrom(items, upserts, retirements, run, merged[i]) {
      FindIsIt(merged, i);
      MergePatchesEachItem(items, upserts, retirements, run, merged[i].id);
      PatchedCameFrom(items, upserts, retirements, run, merged[i]);
    }
  }

  // --------------------------------------------------- which merges are accepted

  /** A text with something to say, and not too much. */
  predicate Between(value: string, least: nat, most: nat) {
    least <= |Trim(value)| <= most
  }

  predicate UpsertIsProper(u: Upsert) {
    && Between(u.id, 1, 80) && Between(u.title, 1, 120)
    && Between(u.detail, 0, 240) && Between(u.rationale, 0, 240) && Between(u.evidence, 0, 240)
    && (u.kind == Milestone || u.kind == Decision || u.kind == Rejected || u.kind == Risk || u.kind == Artifact)
  }

  /** An id is known if an item has it or an upsert brings it. */
  predicate Known(items: seq<Item>, upserts: seq<Upsert>, id: string) {
    || (exists i :: 0 <= i < |items| && items[i].id == id)
    || (exists k :: 0 <= k < |upserts| && Trim(upserts[k].id) == id)
  }

  predicate PatchIsProper(items: seq<Item>, upserts: seq<Upsert>, retirements: seq<Retirement>) {
    && (forall k :: 0 <= k < |upserts| ==> UpsertIsProper(upserts[k]))
    && (forall k :: 0 <= k < |retirements| ==>
          Known(items, upserts, Trim(retirements[k].id)) && Between(retirements[k].reason, 1, 240))
  }

  lemma UpsertPasses(u: Upsert)
    ensures UpsertError(u).None? <==> UpsertIsProper(u)
  {
  }

  lemma {:induction false} UpsertsPass(upserts: seq<Upsert>)
    ensures FirstUpsertError(upserts).None? <==> forall k :: 0 <= k < |upserts| ==> UpsertError(upserts[k]).None?
  {
    if upserts != [] {
      UpsertsPass(upserts[1..]);
      assert forall k :: 1 <= k < |upserts| ==> upserts[k] == upserts[1..][k - 1];
      assert forall k :: 0 <= k < |upserts[1..]| ==> upserts[1..][k] == upserts[k + 1];
    }
  }

  lemma {:induction false} RetirementsPass(items: seq<Item>, retirements: seq<Retirement>, run: string)
    ensures RetireAll(items, retirements, run).Ok? <==>
      forall k :: 0 <= k < |retirements| ==> Trim(retirements[k].id) in Ids(items) && Between(retirements[k].reason, 1, 240)
    decreases |retirements|
  {
    if retirements != [] {
      var r, rest := retirements[0], retirements[1..];
      RetirementsPass(RetireAt(items, r, run), rest, run);
      assert forall k :: 1 <= k < |retirements| ==> retirements[k] == rest[k - 1];
      assert forall k :: 0 <= k < |rest| ==> rest[k] == retirements[k + 1];
    }
  }

  lemma {:induction false} MentionsAreThere(seen: seq<string>, ids: seq<string>, id: string)
    ensures id in seen + FirstMentions(seen, ids) <==> id in seen || id in ids
    decreases |ids|
  {
    if ids != [] {
      MentionsAreThere(if ids[0] in seen then seen else seen + [ids[0]], ids[1..], id);
      assert ids == [ids[0]] + ids[1..];
    }
  }

  lemma InIds(items: seq<Item>, id: string)
    ensures id in Ids(items) <==> exists i :: 0 <= i < |items| && items[i].id == id
  {
    if i :| 0 <= i < |items| && items[i].id == id { assert Ids(items)[i] == id; }
  }

  lemma InNewIds(upserts: seq<Upsert>, run: string, id: string)
    ensures id in Ids(ItemsOf(upserts, run)) <==> exists k :: 0 <= k < |upserts| && Trim(upserts[k].id) == id
  {
    var news := ItemsOf(upserts, run);
    InIds(news, id);
    if k :| 0 <= k < |upserts| && Trim(upserts[k].id) == id { assert news[k].id == id; }
    if i :| 0 <= i < |news| && news[i].id == id { assert Trim(upserts[i].id) == id; }
  }

  lemma {:induction false} KnownIsThere(items: seq<Item>, upserts: seq<Upsert>, run: string, id: string)
    ensures id in Ids(PutAll(items, ItemsOf(upserts, run))) <==> Known(items, upserts, id)
  {
    PutAllIds(items, ItemsOf(upserts, run));
    MentionsAreThere(Ids(items), Ids(ItemsOf(upserts, run)), id);
    InIds(items, id);
    InNewIds(upserts, run, id);
  }

  /** A patch is merged exactly if each of its entries is proper. */
  lemma MergeIsAcceptedExactly(items: seq<Item>, upserts: seq<Upsert>, retirements: seq<Retirement>, run: string)
    requires Distinct(Ids(items))
    ensures Merge(items, upserts, retirements, run).Ok? <==> PatchIsProper(items, upserts, retirements)
  {
    UpsertsPass(upserts);
    forall k | 0 <= k < |upserts| ensures UpsertError(upserts[k]).None? <==> UpsertIsProper(upserts[k]) {
      UpsertPasses(upserts[k]);
    }
    LastWinsKeepsDistinct(items);
    RetirementsPass(PutAll(items, ItemsOf(upserts, run)), retirements, run);
    forall k | 0 <= k < |retirements|
      ensures Trim(retirements[k].id) in Ids(PutAll(items, ItemsOf(upserts, run))) <==> Known(items, upserts, Trim(retirements[k].id))
    {
      KnownIsThere(items, upserts, run, Trim(retirements[k].id));
    }
  }
}
