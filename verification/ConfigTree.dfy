/**
 * config.yaml as a syntax tree: a mapping keeps its keys and values in one flat
 * list, key node and value node in turn. This module says what the editor's
 * edits make of such a list, and proves that on it they act as an ordered map.
 */
module ConfigTree {
  import opened Seqs

  datatype NodeKind = DocumentNode | SequenceNode | MappingNode | ScalarNode | AliasNode

  datatype Tree = Tree(kind: NodeKind, tag: string, style: nat, value: string, comment: string, content: seq<Tree>)

  function Leaf(value: string): Tree {
    Tree(ScalarNode, "", 0, value, "", [])
  }

  function Leaves(values: seq<string>): (r: seq<Tree>)
    ensures |r| == |values| && forall i :: 0 <= i < |r| ==> r[i] == Leaf(values[i])
  {
    seq(|values|, i requires 0 <= i < |values| => Leaf(values[i]))
  }

  /** What a setter writes under a key; an empty text or list clears the key. */
  datatype Write = Text(text: string) | List(items: seq<string>)

  predicate Clears(w: Write) {
    match w
    case Text(text) => text == ""
    case List(items) => items == []
  }

  /** sequenceEqual compares the values of the elements, and no more. */
  predicate SameValues(nodes: seq<Tree>, values: seq<string>) {
    |nodes| == |values| && forall i :: 0 <= i < |nodes| ==> nodes[i].value == values[i]
  }

  predicate Shows(node: Tree, w: Write) {
    match w
    case Text(text) => node.kind == ScalarNode && node.value == text
    case List(items) => node.kind == SequenceNode && SameValues(node.content, items)
  }

  function Fresh(w: Write): Tree {
    match w
    case Text(text) => Leaf(text)
    case List(items) => Tree(SequenceNode, "", 0, "", "", Leaves(items))
  }

  /** A scalar is overwritten where it stands, keeping its comments; a list is replaced. */
  function Rewritten(node: Tree, w: Write): Tree {
    match w
    case Text(text) => node.(kind := ScalarNode, tag := "", style := 0, value := text)
    case List(_) => Fresh(w)
  }

  lemma RewrittenShows(node: Tree, w: Write)
    ensures Shows(Rewritten(node, w), w) && Shows(Fresh(w), w)
    ensures !Shows(node, w) ==> Rewritten(node, w) != node
  {
  }

  /** setScalarChild and setSequenceChild */
  function Put(c: seq<Tree>, key: string, w: Write): seq<Tree> {
    if |c| < 2 then if Clears(w) then c else c + [Leaf(key), Fresh(w)]
    else if c[0].value != key then c[..2] + Put(c[2..], key, w)
    else if Clears(w) then c[2..]
    else if Shows(c[1], w) then c
    else [c[0], Rewritten(c[1], w)] + c[2..]
  }

  /** mappingChild */
  function Lookup(c: seq<Tree>, key: string): Option<Tree> {
    if |c| < 2 then None
    else if c[0].value == key then Some(c[1])
    else Lookup(c[2..], key)
  }

  function Keys(c: seq<Tree>): seq<string> {
    if |c| < 2 then [] else [c[0].value] + Keys(c[2..])
  }

  /** The pairs under one key, in order. */
  function Only(c: seq<Tree>, key: string): seq<Tree> {
    if |c| < 2 then []
    else if c[0].value == key then c[..2] + Only(c[2..], key)
    else Only(c[2..], key)
  }

  /** The pairs under every other key, in order. */
  function Others(c: seq<Tree>, key: string): seq<Tree> {
    if |c| < 2 then []
    else if c[0].value == key then Others(c[2..], key)
    else c[..2] + Others(c[2..], key)
  }

  function Without(keys: seq<string>, key: string): seq<string> {
    if keys == [] then [] else if keys[0] == key then keys[1..] else [keys[0]] + Without(keys[1..], key)
  }

  predicate Even(c: seq<Tree>) {
    |c| % 2 == 0
  }

  lemma SplitPair(c: seq<Tree>)
    requires |c| >= 2
    ensures c == c[..2] + c[2..] && Even(c) == Even(c[2..])
  {
  }

  lemma PairThen(a: Tree, b: Tree, rest: seq<Tree>)
    ensures ([a, b] + rest)[..2] == [a, b] && ([a, b] + rest)[2..] == rest
  {
  }

  // ------------------------------------------------------------- one write

  lemma {:induction false} PutOthers(c: seq<Tree>, key: string, w: Write)
    requires Even(c)
    ensures Even(Put(c, key, w)) && Others(Put(c, key, w), key) == Others(c, key)
  {
    if |c| < 2 {
      var n := [Leaf(key), Fresh(w)];
      assert c + n == n && n[2..] == [];
    } else if c[0].value != key {
      PutOthers(c[2..], key, w);
      PairThen(c[0], c[1], Put(c[2..], key, w));
      assert c[..2] == [c[0], c[1]];
    } else if !Clears(w) && !Shows(c[1], w) {
      PairThen(c[0], Rewritten(c[1], w), c[2..]);
    }
  }

  function PutOne(only: seq<Tree>, key: string, w: Write): seq<Tree> {
    if |only| < 2 then if Clears(w) then [] else [Leaf(key), Fresh(w)]
    else if Clears(w) then only[2..]
    else if Shows(only[1], w) then only
    else [only[0], Rewritten(only[1], w)] + only[2..]
  }

  lemma {:induction false} PutOnly(c: seq<Tree>, key: string, w: Write)
    requires Even(c)
    ensures Only(Put(c, key, w), key) == PutOne(Only(c, key), key, w)
  {
    if |c| >= 2 {
      var o := Only(c[2..], key);
      if c[0].value != key {
        PutOnly(c[2..], key, w);
        PairThen(c[0], c[1], Put(c[2..], key, w));
        assert c[..2] == [c[0], c[1]];
      } else {
        assert c[..2] == [c[0], c[1]];
        PairThen(c[0], c[1], o);
        PairThen(c[0], Rewritten(c[1], w), c[2..]);
        PairThen(c[0], Rewritten(c[1], w), o);
      }
    } else {
      var n := [Leaf(key), Fresh(w)];
      assert c + n == n && n[2..] == [] && n[..2] == n;
      assert Only(n, key) == n + [];
    }
  }

  /** Nothing is left to write: the key shows the value, or is absent when it should be. */
  predicate Settled(only: seq<Tree>, w: Write) {
    if |only| < 2 then Clears(w) else !Clears(w) && Shows(only[1], w)
  }

  lemma {:induction false} PutIsIdle(c: seq<Tree>, key: string, w: Write)
    ensures Put(c, key, w) == c <==> Settled(Only(c, key), w)
  {
    if |c| >= 2 {
      SplitPair(c);
      if c[0].value != key {
        PutIsIdle(c[2..], key, w);
        if Put(c, key, w) == c {
          assert Put(c, key, w)[2..] == Put(c[2..], key, w);
        }
      } else if !Clears(w) && !Shows(c[1], w) {
        RewrittenShows(c[1], w);
        assert Put(c, key, w)[1] == Rewritten(c[1], w);
      }
    }
  }

  /** What other keys hold is settled by the pairs of the other keys. */
  lemma {:induction false} OnlyOfOthers(c: seq<Tree>, key: string, other: string)
    requires key != other
    ensures Only(Others(c, key), other) == Only(c, other)
  {
    if |c| >= 2 {
      OnlyOfOthers(c[2..], key, other);
      if c[0].value != key {
        assert c[..2] == [c[0], c[1]];
        PairThen(c[0], c[1], Others(c[2..], key));
      }
    }
  }

  lemma {:induction false} PutKeepsOther(c: seq<Tree>, key: string, w: Write, other: string)
    requires Even(c) && key != other
    ensures Only(Put(c, key, w), other) == Only(c, other)
  {
    PutOthers(c, key, w);
    OnlyOfOthers(c, key, other);
    OnlyOfOthers(Put(c, key, w), key, other);
  }

  lemma {:induction false} LookupIsFirst(c: seq<Tree>, key: string)
    ensures |Only(c, key)| % 2 == 0
    ensures Lookup(c, key) == if |Only(c, key)| < 2 then None else Some(Only(c, key)[1])
    ensures Lookup(c, key).Some? <==> key in Keys(c)
  {
    if |c| >= 2 { LookupIsFirst(c[2..], key); }
  }

  lemma {:induction false} PutKeys(c: seq<Tree>, key: string, w: Write)
    requires Even(c)
    ensures Keys(Put(c, key, w)) ==
      if Clears(w) then Without(Keys(c), key) else if key in Keys(c) then Keys(c) else Keys(c) + [key]
  {
    if |c| >= 2 {
      if c[0].value != key {
        PutKeys(c[2..], key, w);
        assert c[..2] == [c[0], c[1]];
        PairThen(c[0], c[1], Put(c[2..], key, w));
        Assoc([c[0].value], Keys(c[2..]), [key]);
        assert Keys(c)[1..] == Keys(c[2..]);
      } else {
        assert Keys(c)[1..] == Keys(c[2..]);
        PairThen(c[0], Rewritten(c[1], w), c[2..]);
      }
    } else {
      var n := [Leaf(key), Fresh(w)];
      assert c + n == n && n[2..] == [];
    }
  }

  lemma {:induction false} DistinctKeyOnce(c: seq<Tree>, key: string)
    requires Distinct(Keys(c))
    ensures |Only(c, key)| <= 2
  {
    if |c| >= 2 {
      DistinctRest(Keys(c));
      assert Keys(c)[1..] == Keys(c[2..]);
      DistinctKeyOnce(c[2..], key);
      LookupIsFirst(c[2..], key);
    }
  }

  lemma DistinctRest(s: seq<string>)
    requires Distinct(s) && s != []
    ensures Distinct(s[1..]) && s[0] !in s[1..]
  {
    assert forall j :: 0 <= j < |s[1..]| ==> s[1..][j] == s[j + 1];
  }

  lemma {:induction false} WithoutKeepsDistinct(keys: seq<string>, key: string)
    requires Distinct(keys)
    ensures Distinct(Without(keys, key)) && key !in Without(keys, key)
    ensures forall k :: k in Without(keys, key) ==> k in keys
  {
    if keys != [] {
      DistinctRest(keys);
      WithoutKeepsDistinct(keys[1..], key);
      assert keys == [keys[0]] + keys[1..];
    }
  }

  /** A text over an old value: nothing changes if it is that already, and else its tag and style go and its comment stays. */
  function Overwritten(was: Option<Tree>, text: string): Tree {
    match was
    case None => Tree(ScalarNode, "", 0, text, "", [])
    case Some(node) =>
      if node.kind == ScalarNode && node.value == text then node
      else Tree(ScalarNode, "", 0, text, node.comment, node.content)
  }

  /**
   * On a mapping with unique keys a write is an ordered-map update: the key gets
   * its value in its place or at the end, or is gone; every other pair keeps its
   * nodes and its place among the others; and keys stay unique.
   */
  lemma {:induction false} PutIsMapUpdate(c: seq<Tree>, key: string, w: Write)
    requires Even(c) && Distinct(Keys(c))
    ensures var after := Put(c, key, w);
      && Even(after) && Distinct(Keys(after))
      && Others(after, key) == Others(c, key)
      && (if Clears(w) then Lookup(after, key).None? else Lookup(after, key).Some? && Shows(Lookup(after, key).value, w))
      && (!Clears(w) ==> Keys(after) == if key in Keys(c) then Keys(c) else Keys(c) + [key])
      && (forall other :: other != key ==> Lookup(after, other) == Lookup(c, other))
      && (w.Text? && w.text != "" ==> Lookup(after, key).value == Overwritten(Lookup(c, key), w.text))
  {
    var after := Put(c, key, w);
    PutOthers(c, key, w);
    PutOnly(c, key, w);
    PutKeys(c, key, w);
    LookupIsFirst(c, key);
    LookupIsFirst(after, key);
    DistinctKeyOnce(c, key);
    if Lookup(c, key).Some? { RewrittenShows(Lookup(c, key).value, w); } else { RewrittenShows(Leaf(""), w); }
    WithoutKeepsDistinct(Keys(c), key);
    forall other | other != key ensures Lookup(after, other) == Lookup(c, other) {
      PutKeepsOther(c, key, w, other);
      LookupIsFirst(c, other);
      LookupIsFirst(after, other);
    }
  }

  /** Writing again changes nothing exactly when the value is not empty or the key was there at most once. */
  lemma {:induction false} PutTwice(c: seq<Tree>, key: string, w: Write)
    requires Even(c)
    ensures Put(Put(c, key, w), key, w) == Put(c, key, w) <==> !Clears(w) || |Only(c, key)| <= 2
  {
    PutOnly(c, key, w);
    PutIsIdle(Put(c, key, w), key, w);
    LookupIsFirst(c, key);
    if |Only(c, key)| >= 2 { RewrittenShows(Only(c, key)[1], w); } else { RewrittenShows(Leaf(""), w); }
  }

  // ----------------------------------------------------------- many writes

  datatype Setting = Setting(key: string, write: Write)

  function SettingKeys(ws: seq<Setting>): (r: seq<string>)
    ensures |r| == |ws| && forall i :: 0 <= i < |ws| ==> r[i] == ws[i].key
  {
    seq(|ws|, i requires 0 <= i < |ws| => ws[i].key)
  }

  function PutAll(c: seq<Tree>, ws: seq<Setting>): seq<Tree>
    decreases |ws|
  {
    if ws == [] then c else PutAll(Put(c, ws[0].key, ws[0].write), ws[1..])
  }

  /** What the setters' flags add up to. */
  predicate AnyChange(c: seq<Tree>, ws: seq<Setting>)
    decreases |ws|
  {
    ws != [] && (Put(c, ws[0].key, ws[0].write) != c || AnyChange(Put(c, ws[0].key, ws[0].write), ws[1..]))
  }

  lemma {:induction false} PutAllKeepsOther(c: seq<Tree>, ws: seq<Setting>, other: string)
    requires Even(c) && other !in SettingKeys(ws)
    ensures Even(PutAll(c, ws)) && Only(PutAll(c, ws), other) == Only(c, other)
    decreases |ws|
  {
    if ws != [] {
      assert SettingKeys(ws)[0] == ws[0].key && SettingKeys(ws)[1..] == SettingKeys(ws[1..]);
      PutOthers(c, ws[0].key, ws[0].write);
      PutKeepsOther(c, ws[0].key, ws[0].write, other);
      PutAllKeepsOther(Put(c, ws[0].key, ws[0].write), ws[1..], other);
    }
  }

  lemma NotLater(ws: seq<Setting>)
    requires ws != [] && Distinct(SettingKeys(ws))
    ensures ws[0].key !in SettingKeys(ws[1..]) && Distinct(SettingKeys(ws[1..]))
  {
    assert SettingKeys(ws[1..]) == SettingKeys(ws)[1..];
    DistinctRest(SettingKeys(ws));
  }

  /** Each written key ends as its own write makes it. */
  lemma {:induction false} PutAllOnly(c: seq<Tree>, ws: seq<Setting>, i: nat)
    requires Even(c) && Distinct(SettingKeys(ws)) && i < |ws|
    ensures Only(PutAll(c, ws), ws[i].key) == PutOne(Only(c, ws[i].key), ws[i].key, ws[i].write)
    decreases |ws|
  {
    var next := Put(c, ws[0].key, ws[0].write);
    NotLater(ws);
    PutOthers(c, ws[0].key, ws[0].write);
    if i == 0 {
      PutOnly(c, ws[0].key, ws[0].write);
      PutAllKeepsOther(next, ws[1..], ws[0].key);
    } else {
      assert SettingKeys(ws)[i] != SettingKeys(ws)[0];
      PutKeepsOther(c, ws[0].key, ws[0].write, ws[i].key);
      PutAllOnly(next, ws[1..], i - 1);
    }
  }

  /** The flags add up to exactly whether the mapping changed: no write undoes another. */
  lemma {:induction false} AnyChangeIsExact(c: seq<Tree>, ws: seq<Setting>)
    requires Even(c) && Distinct(SettingKeys(ws))
    ensures AnyChange(c, ws) <==> PutAll(c, ws) != c
    decreases |ws|
  {
    if ws != [] {
      var key, w := ws[0].key, ws[0].write;
      var next := Put(c, key, w);
      NotLater(ws);
      PutOthers(c, key, w);
      AnyChangeIsExact(next, ws[1..]);
      PutAllKeepsOther(next, ws[1..], key);
      PutOnly(c, key, w);
      PutIsIdle(c, key, w);
      LookupIsFirst(c, key);
      if |Only(c, key)| >= 2 { RewrittenShows(Only(c, key)[1], w); }
    }
  }

  lemma {:induction false} PutAllIsIdle(c: seq<Tree>, ws: seq<Setting>)
    requires Even(c) && Distinct(SettingKeys(ws))
    ensures PutAll(c, ws) == c <==> forall i :: 0 <= i < |ws| ==> Settled(Only(c, ws[i].key), ws[i].write)
    decreases |ws|
  {
    AnyChangeIsExact(c, ws);
    if ws != [] {
      var key, w := ws[0].key, ws[0].write;
      PutIsIdle(c, key, w);
      NotLater(ws);
      PutOthers(c, key, w);
      if Put(c, key, w) == c {
        PutAllIsIdle(c, ws[1..]);
        AnyChangeIsExact(c, ws[1..]);
        assert forall i :: 1 <= i < |ws| ==> ws[i] == ws[1..][i - 1];
        assert forall i :: 0 <= i < |ws| - 1 ==> ws[1..][i] == ws[i + 1];
      }
    }
  }

  /** Applying the same settings again changes nothing exactly when no cleared key was there more than once. */
  lemma {:induction false} PutAllTwice(c: seq<Tree>, ws: seq<Setting>)
    requires Even(c) && Distinct(SettingKeys(ws))
    ensures PutAll(PutAll(c, ws), ws) == PutAll(c, ws)
      <==> forall i :: 0 <= i < |ws| && Clears(ws[i].write) ==> |Only(c, ws[i].key)| <= 2
  {
    var after := PutAll(c, ws);
    PutAllIsEven(c, ws);
    PutAllIsIdle(after, ws);
    forall i | 0 <= i < |ws|
      ensures Settled(Only(after, ws[i].key), ws[i].write) <==> (Clears(ws[i].write) ==> |Only(c, ws[i].key)| <= 2)
    {
      PutAllOnly(c, ws, i);
      LookupIsFirst(c, ws[i].key);
      if |Only(c, ws[i].key)| >= 2 { RewrittenShows(Only(c, ws[i].key)[1], ws[i].write); } else { RewrittenShows(Leaf(""), ws[i].write); }
    }
  }

  lemma {:induction false} PutAllIsEven(c: seq<Tree>, ws: seq<Setting>)
    requires Even(c)
    ensures Even(PutAll(c, ws))
    decreases |ws|
  {
    if ws != [] {
      PutOthers(c, ws[0].key, ws[0].write);
      PutAllIsEven(Put(c, ws[0].key, ws[0].write), ws[1..]);
    }
  }

  // ------------------------------------------------- a child's own content

  /** Puts new content into the first value under a key. */
  function SetContent(c: seq<Tree>, key: string, content: seq<Tree>): seq<Tree> {
    if |c| < 2 then c
    else if c[0].value == key then [c[0], c[1].(content := content)] + c[2..]
    else c[..2] + SetContent(c[2..], key, content)
  }

  lemma {:induction false} SetContentAct(c: seq<Tree>, key: string, x: seq<Tree>)
    ensures |SetContent(c, key, x)| == |c|
    ensures Others(SetContent(c, key, x), key) == Others(c, key)
    ensures Lookup(SetContent(c, key, x), key) ==
      if Lookup(c, key).Some? then Some(Lookup(c, key).value.(content := x)) else None
  {
    if |c| >= 2 {
      assert c[..2] == [c[0], c[1]];
      if c[0].value == key {
        PairThen(c[0], c[1].(content := x), c[2..]);
      } else {
        SetContentAct(c[2..], key, x);
        PairThen(c[0], c[1], SetContent(c[2..], key, x));
      }
    }
  }

  lemma {:induction false} SetContentTwice(c: seq<Tree>, key: string, x: seq<Tree>, y: seq<Tree>)
    ensures SetContent(SetContent(c, key, x), key, y) == SetContent(c, key, y)
    ensures Lookup(c, key).Some? ==> (SetContent(c, key, x) == c <==> x == Lookup(c, key).value.content)
  {
    if |c| >= 2 {
      assert c[..2] == [c[0], c[1]];
      SplitPair(c);
      if c[0].value == key {
        var n := c[1].(content := x);
        PairThen(c[0], n, c[2..]);
        assert n == c[1] <==> x == c[1].content;
        assert SetContent(c, key, x)[1] == n;
      } else {
        SetContentTwice(c[2..], key, x, y);
        PairThen(c[0], c[1], SetContent(c[2..], key, x));
        assert SetContent(c, key, x)[2..] == SetContent(c[2..], key, x);
      }
    }
  }

  /** A key that is missing is added at the end. */
  lemma {:induction false} AppendKey(c: seq<Tree>, key: string, node: Tree)
    requires Even(c) && Lookup(c, key).None?
    ensures Lookup(c + [Leaf(key), node], key) == Some(node)
    ensures forall x :: SetContent(c + [Leaf(key), node], key, x) == c + [Leaf(key), node.(content := x)]
    ensures Others(c + [Leaf(key), node], key) == Others(c, key) == c
    ensures Put(c + [Leaf(key), node], key, Text("")) == c
  {
    var pair := [Leaf(key), node];
    if |c| < 2 {
      assert c + pair == pair && pair[2..] == [];
      forall x ensures SetContent(pair, key, x) == [Leaf(key), node.(content := x)] {
        assert [Leaf(key), node.(content := x)] + [] == [Leaf(key), node.(content := x)];
      }
    } else {
      AppendKey(c[2..], key, node);
      assert (c + pair)[..2] == c[..2] && (c + pair)[2..] == c[2..] + pair;
      SplitPair(c);
      forall x ensures SetContent(c + pair, key, x) == c + [Leaf(key), node.(content := x)] {
        Assoc(c[..2], c[2..], [Leaf(key), node.(content := x)]);
      }
    }
  }
}
