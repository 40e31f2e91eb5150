/** config.yaml in memory, with the editor's loops over flat node lists. */
module ConfigFile {
  import opened Seqs
  import opened ConfigTree
  import opened ConfigEditor
  import opened ConfigProfiles

  /** A node whose list of children the setters splice in place. */
  class MappingNodes {
    var content: seq<Tree>

    constructor (start: seq<Tree>)
      ensures content == start
    {
      content := start;
    }

    /** mappingChild, by position: the value's index, or -1. */
    method Find(key: string) returns (at: int)
      ensures at == -1 || 1 <= at < |content|
      ensures Lookup(content, key) == if at < 0 then None else Some(content[at])
      ensures at >= 0 ==> forall x: seq<Tree> :: SetContent(content, key, x) == content[at := content[at].(content := x)]
    {
      var i := 0;
      while i + 1 < |content|
        invariant 0 <= i <= |content|
        invariant Lookup(content, key) == Lookup(content[i..], key)
        invariant forall x: seq<Tree> :: SetContent(content, key, x) == content[..i] + SetContent(content[i..], key, x)
      {
        ghost var tail := content[i..];
        assert tail[0] == content[i] && tail[1] == content[i + 1] && tail[2..] == content[i + 2..];
        if content[i].value == key {
          forall x: seq<Tree> ensures SetContent(content, key, x) == content[i + 1 := content[i + 1].(content := x)] {
            assert SetContent(tail, key, x) == [tail[0], tail[1].(content := x)] + tail[2..];
          }
          return i + 1;
        }
        forall x: seq<Tree> ensures SetContent(content, key, x) == content[..i + 2] + SetContent(content[i + 2..], key, x) {
          assert SetContent(tail, key, x) == tail[..2] + SetContent(tail[2..], key, x);
          assert content[..i + 2] == content[..i] + tail[..2];
          Assoc(content[..i], tail[..2], SetContent(tail[2..], key, x));
        }
        i := i + 2;
      }
      at := -1;
    }

    method SetScalarChild(key: string, value: string) returns (changed: bool)
      modifies this
      ensures content == Put(old(content), key, Text(value))
      ensures changed <==> content != old(content)
    {
      var i := 0;
      while i + 1 < |content|
        invariant 0 <= i <= |content| && content == old(content)
        invariant Put(content, key, Text(value)) == content[..i] + Put(content[i..], key, Text(value))
      {
        PutStep(content, i, key, Text(value));
        if content[i].value != key {
          i := i + 2;
          continue;
        }
        if value == "" {
          content := content[..i] + content[i + 2..];
          return true;
        }
        if content[i + 1].value == value && content[i + 1].kind == ScalarNode { return false; }
        content := content[i + 1 := content[i + 1].(kind := ScalarNode, tag := "", style := 0, value := value)];
        return true;
      }
      if value == "" { return false; }
      content := content + [Leaf(key), Leaf(value)];
      changed := true;
    }

    method SetSequenceChild(key: string, values: seq<string>) returns (changed: bool)
      modifies this
      ensures content == Put(old(content), key, List(values))
      ensures changed <==> content != old(content)
    {
      var nodes := LeafNodes(values);
      var list := Tree(SequenceNode, "", 0, "", "", nodes);
      assert list == Fresh(List(values));
      var i := 0;
      while i + 1 < |content|
        invariant 0 <= i <= |content| && content == old(content)
        invariant Put(content, key, List(values)) == content[..i] + Put(content[i..], key, List(values))
      {
        PutStep(content, i, key, List(values));
        if content[i].value != key {
          i := i + 2;
          continue;
        }
        if values == [] {
          content := content[..i] + content[i + 2..];
          return true;
        }
        var same := SequenceEqual(content[i + 1], values);
        if same { return false; }
        RewrittenShows(content[i + 1], List(values));
        content := content[i + 1 := list];
        return true;
      }
      if values == [] { return false; }
      content := content + [Leaf(key), list];
      changed := true;
    }

    method RemoveMappingChild(key: string) returns (changed: bool)
      modifies this
      ensures content == Put(old(content), key, Text(""))
      ensures changed <==> content != old(content)
    {
      changed := SetScalarChild(key, "");
    }
  }

  /** One turn of a setter's loop. */
  lemma {:induction false} PutStep(c: seq<Tree>, i: nat, key: string, w: Write)
    requires i + 1 < |c|
    ensures c[i].value != key ==> c[..i] + Put(c[i..], key, w) == c[..i + 2] + Put(c[i + 2..], key, w)
    ensures c[i].value == key ==>
      (c[..i] + Put(c[i..], key, w) ==
        if Clears(w) then c[..i] + c[i + 2..] else if Shows(c[i + 1], w) then c else c[i + 1 := Rewritten(c[i + 1], w)])
  {
    var tail := c[i..];
    assert tail[0] == c[i] && tail[1] == c[i + 1] && tail[2..] == c[i + 2..];
    if c[i].value != key {
      assert c[..i + 2] == c[..i] + tail[..2];
      Assoc(c[..i], tail[..2], Put(tail[2..], key, w));
    }
  }

  method LeafNodes(values: seq<string>) returns (nodes: seq<Tree>)
    ensures nodes == Leaves(values)
  {
    nodes := [];
    for i := 0 to |values|
      invariant nodes == Leaves(values[..i])
    {
      nodes := nodes + [Leaf(values[i])];
    }
    assert values[..|values|] == values;
  }

  method SequenceEqual(node: Tree, values: seq<string>) returns (same: bool)
    ensures same <==> Shows(node, List(values))
  {
    if node.kind != SequenceNode || |node.content| != |values| { return false; }
    for i := 0 to |values|
      invariant forall j :: 0 <= j < i ==> node.content[j].value == values[j]
    {
      if node.content[i].value != values[i] { return false; }
    }
    same := true;
  }

  lemma {:induction false} UnnamedStep(was: seq<Tree>, i: nat, name: string, front: seq<Tree>)
    requires i < |was|
    ensures front + Unnamed(was[i..], name) ==
      if NodeName(was[i]) == name then front + Unnamed(was[i + 1..], name) else (front + [was[i]]) + Unnamed(was[i + 1..], name)
  {
    assert was[i..][0] == was[i] && was[i..][1..] == was[i + 1..];
    Assoc(front, [was[i]], Unnamed(was[i + 1..], name));
  }

  /** The in-place filter: what is kept is copied down over what was read. */
  method DropNamed(entries: array<Tree>, name: string) returns (kept: nat)
    modifies entries
    ensures kept <= entries.Length && entries[..kept] == Unnamed(old(entries[..]), name)
  {
    kept := 0;
    ghost var was := entries[..];
    for i := 0 to entries.Length
      invariant kept <= i
      invariant forall j :: i <= j < entries.Length ==> entries[j] == was[j]
      invariant Unnamed(was, name) == entries[..kept] + Unnamed(was[i..], name)
    {
      ghost var front := entries[..kept];
      UnnamedStep(was, i, name, front);
      var entry := entries[i];
      if NodeName(entry) != name {
        entries[kept] := entry;
        kept := kept + 1;
        assert entries[..kept] == front + [was[i]];
      }
    }
    assert was[entries.Length..] == [];
  }

  lemma {:induction false} UpsertStep(entries: seq<Tree>, i: nat, p: Profile)
    requires i < |entries|
    ensures UpsertReports(entries[i..], p) ==
      if NodeName(entries[i]) != p.name then UpsertReports(entries[i + 1..], p) else !ProfileEqual(entries[i], p)
    ensures entries[..i] + Upserted(entries[i..], p) ==
      if NodeName(entries[i]) != p.name then entries[..i + 1] + Upserted(entries[i + 1..], p)
      else if ProfileEqual(entries[i], p) then entries
      else entries[i := ProfileNode(p)]
  {
    var tail, node := entries[i..], ProfileNode(p);
    assert tail[0] == entries[i] && tail[1..] == entries[i + 1..];
    if NodeName(entries[i]) != p.name {
      assert entries[..i + 1] == entries[..i] + [entries[i]];
      Assoc(entries[..i], [entries[i]], Upserted(entries[i + 1..], p));
    }
  }

  /** upsertProfile's loop over the entries of the profiles list. */
  method UpsertEntry(entries: seq<Tree>, p: Profile) returns (after: seq<Tree>, changed: bool)
    ensures after == Upserted(entries, p)
    ensures changed <==> UpsertReports(entries, p)
  {
    after := entries;
    var i := 0;
    while i < |entries|
      invariant i <= |entries| && after == entries
      invariant Upserted(entries, p) == entries[..i] + Upserted(entries[i..], p)
      invariant UpsertReports(entries, p) == UpsertReports(entries[i..], p)
    {
      UpsertStep(entries, i, p);
      if NodeName(entries[i]) == p.name {
        if ProfileEqual(entries[i], p) { return entries, false; }
        return entries[i := ProfileNode(p)], true;
      }
      i := i + 1;
    }
    return entries + [ProfileNode(p)], true;
  }

  /** Some of the settings are written, starting from c0, and the flag says whether one of them changed anything. */
  ghost predicate Written(c0: seq<Tree>, c: seq<Tree>, ws: seq<Setting>, i: nat, changed: bool)
    requires i <= |ws|
  {
    && PutAll(c0, ws) == PutAll(c, ws[i..])
    && (AnyChange(c0, ws) <==> changed || AnyChange(c, ws[i..]))
  }

  method WriteText(global: MappingNodes, key: string, value: string, sofar: bool, ghost c0: seq<Tree>, ghost ws: seq<Setting>, ghost i: nat)
    returns (changed: bool)
    requires i < |ws| && ws[i] == Setting(key, Text(value)) && Written(c0, global.content, ws, i, sofar)
    modifies global
    ensures Written(c0, global.content, ws, i + 1, changed)
  {
    assert ws[i..][0] == ws[i] && ws[i..][1..] == ws[i + 1..];
    var c := global.SetScalarChild(key, value);
    changed := c || sofar;
  }

  method WriteSettings(global: MappingNodes, g: Global) returns (changed: bool)
    modifies global
    ensures global.content == PutAll(old(global.content), GlobalSettings(g))
    ensures changed <==> AnyChange(old(global.content), GlobalSettings(g))
  {
    ghost var ws, c0 := GlobalSettings(g), global.content;
    assert Written(c0, c0, ws, 0, false) by { assert ws[0..] == ws; }
    changed := WriteModelSettings(global, g, c0, ws);
    changed := WritePermissionSettings(global, g, changed, c0, ws);
    changed := WriteListSettings(global, g, changed, c0, ws);
    assert ws[9..] == [];
  }

  method WriteModelSettings(global: MappingNodes, g: Global, ghost c0: seq<Tree>, ghost ws: seq<Setting>) returns (changed: bool)
    requires ws == GlobalSettings(g) && Written(c0, global.content, ws, 0, false)
    modifies global
    ensures Written(c0, global.content, ws, 4, changed)
  {
    changed := WriteText(global, "provider", g.provider, false, c0, ws, 0);
    changed := WriteText(global, "profile", g.profile, changed, c0, ws, 1);
    changed := WriteText(global, "model", g.model, changed, c0, ws, 2);
    changed := WriteText(global, "effort", g.effort, changed, c0, ws, 3);
  }

  method WritePermissionSettings(global: MappingNodes, g: Global, sofar: bool, ghost c0: seq<Tree>, ghost ws: seq<Setting>)
    returns (changed: bool)
    requires ws == GlobalSettings(g) && Written(c0, global.content, ws, 4, sofar)
    modifies global
    ensures Written(c0, global.content, ws, 6, changed)
  {
    changed := WriteText(global, "permission_mode", g.permissionMode, sofar, c0, ws, 4);
    changed := WriteText(global, "permission_timeout", g.permissionTimeout, changed, c0, ws, 5);
  }

  method WriteListSettings(global: MappingNodes, g: Global, sofar: bool, ghost c0: seq<Tree>, ghost ws: seq<Setting>)
    returns (changed: bool)
    requires ws == GlobalSettings(g) && Written(c0, global.content, ws, 6, sofar)
    modifies global
    ensures Written(c0, global.content, ws, 9, changed)
  {
    var days := if g.autoArchiveDays == 0 then DEFAULT_ARCHIVE_DAYS else g.autoArchiveDays;
    var collapse := if g.collapseReasoning then "true" else "";
    assert ws[6..][0] == ws[6] && ws[6..][1..] == ws[7..];
    var c := global.SetSequenceChild("fallback", g.fallback);
    changed := c || sofar;
    changed := WriteText(global, "auto_archive_days", RenderInt(days), changed, c0, ws, 7);
    changed := WriteText(global, "collapse_reasoning", collapse, changed, c0, ws, 8);
  }

  /** The global settings are missing, or a mapping that has each key once. */
  predicate CleanGlobal(c: seq<Tree>) {
    && (Lookup(c, "global").None? || Lookup(c, "global").value.kind == MappingNode)
    && Even(ChildContent(c, "global")) && Distinct(Keys(ChildContent(c, "global")))
  }

  /** The parsed file. Its mappings have a value for every key, as the decoder leaves them. */
  class ConfigDocument {
    var root: Tree

    constructor (parsed: Tree)
      ensures root == parsed
    {
      root := parsed;
    }

    method SetGlobal(g: Global) returns (changed: bool)
      requires Even(Top(root).content)
      modifies this
      ensures Top(old(root)).kind != MappingNode ==> root == old(root) && !changed
      ensures Top(old(root)).kind == MappingNode ==>
        var c := Top(old(root)).content;
        && root == WithTop(old(root), GlobalDoc(c, g))
        && (changed <==> AnyChange(ChildContent(c, "global"), GlobalSettings(g)))
      ensures Top(old(root)).kind == MappingNode && CleanGlobal(Top(old(root)).content) ==>
        ShowsGlobal(ChildContent(Top(root).content, "global"), g)
    {
      WithTopAct(root, GlobalDoc(Top(root).content, g));
      if CleanGlobal(Top(root).content) { GlobalReadsBack(Top(root).content, g); }
      changed := WriteGlobal(g);
    }

    method WriteGlobal(g: Global) returns (changed: bool)
      requires Even(Top(root).content)
      modifies this
      ensures Top(old(root)).kind != MappingNode ==> root == old(root) && !changed
      ensures Top(old(root)).kind == MappingNode ==>
        var c := Top(old(root)).content;
        && root == WithTop(old(root), GlobalDoc(c, g))
        && (changed <==> AnyChange(ChildContent(c, "global"), GlobalSettings(g)))
    {
      if Top(root).kind != MappingNode { return false; }
      var top := new MappingNodes(Top(root).content);
      ghost var c := top.content;
      var at := top.Find("global");
      if at < 0 {
        AppendKey(c, "global", EMPTY_MAPPING);
        top.content := top.content + [Leaf("global"), EMPTY_MAPPING];
        at := |top.content| - 1;
      }
      var global := new MappingNodes(top.content[at].content);
      changed := WriteSettings(global, g);
      assert SetContent(WithKey(c, "global", EMPTY_MAPPING), "global", global.content)
          == top.content[at := top.content[at].(content := global.content)];
      top.content := top.content[at := top.content[at].(content := global.content)];
      root := WithTop(root, top.content);
    }

    method SetVoice(key: string) returns (changed: bool)
      requires Even(Top(root).content)
      modifies this
      ensures Top(old(root)).kind != MappingNode ==> root == old(root) && !changed
      ensures Top(old(root)).kind == MappingNode ==>
        var c := Top(old(root)).content;
        root == WithTop(old(root), VoiceDoc(c, key)) && (changed <==> VoiceChanges(c, key))
    {
      if Top(root).kind != MappingNode { return false; }
      var top := new MappingNodes(Top(root).content);
      ghost var c := top.content;
      var at := top.Find("voice");
      if at < 0 {
        if key == "" {
          WithTopAct(root, c);
          return false;
        }
        AppendKey(c, "voice", EMPTY_MAPPING);
        top.content := top.content + [Leaf("voice"), EMPTY_MAPPING];
        at := |top.content| - 1;
      }
      var voice := new MappingNodes(top.content[at].content);
      changed := voice.SetScalarChild(VOICE_KEY, key);
      ghost var start := WithKey(c, "voice", EMPTY_MAPPING);
      PutLength(ChildContent(c, "voice"), VOICE_KEY, Text(key));
      assert SetContent(start, "voice", voice.content) == top.content[at := top.content[at].(content := voice.content)];
      top.content := top.content[at := top.content[at].(content := voice.content)];
      if voice.content == [] {
        ClearAfterSetContent(c, "voice", []);
        PutLength(c, "voice", Text(""));
        SetContentAct(c, "voice", []);
        var removed := top.RemoveMappingChild("voice");
        changed := removed || changed;
      }
      root := WithTop(root, top.content);
    }

    method UpsertProfile(p: Profile) returns (changed: bool)
      requires Even(Top(root).content)
      modifies this
      ensures Top(old(root)).kind != MappingNode ==> root == old(root) && !changed
      ensures Top(old(root)).kind == MappingNode ==>
        var c := Top(old(root)).content;
        root == WithTop(old(root), UpsertDoc(c, p)) && (changed <==> UpsertDocReports(c, p))
    {
      if Top(root).kind != MappingNode { return false; }
      var top := new MappingNodes(Top(root).content);
      ghost var c := top.content;
      var at := top.Find("profiles");
      if at < 0 {
        AppendKey(c, "profiles", EMPTY_SEQUENCE);
        top.content := top.content + [Leaf("profiles"), EMPTY_SEQUENCE];
        at := |top.content| - 1;
      }
      if top.content[at].kind != SequenceNode {
        WithTopAct(root, c);
        return false;
      }
      var entries;
      entries, changed := UpsertEntry(top.content[at].content, p);
      assert SetContent(WithKey(c, "profiles", EMPTY_SEQUENCE), "profiles", entries)
          == top.content[at := top.content[at].(content := entries)];
      top.content := top.content[at := top.content[at].(content := entries)];
      root := WithTop(root, top.content);
    }

    /** removeProfile and removeAgent: the entries with a name leave the list. */
    method RemoveNamed(list: string, name: string) returns (changed: bool)
      modifies this
      ensures Top(old(root)).kind != MappingNode ==> root == old(root) && !changed
      ensures Top(old(root)).kind == MappingNode ==>
        var c := Top(old(root)).content;
        root == WithTop(old(root), UnnamedDoc(c, list, name)) && (changed <==> UnnamedDoc(c, list, name) != c)
    {
      if Top(root).kind != MappingNode { return false; }
      var top := new MappingNodes(Top(root).content);
      ghost var c := top.content;
      WithTopAct(root, c);
      var at := top.Find(list);
      if at < 0 || top.content[at].kind != SequenceNode { return false; }
      var node := top.content[at];
      RemoveReportIsExact(c, list, name);
      UnnamedIsExact(node.content, name);
      var entries := new Tree[|node.content|](i requires 0 <= i < |node.content| => node.content[i]);
      assert entries[..] == node.content;
      var kept := DropNamed(entries, name);
      changed := kept != entries.Length;
      if changed {
        top.content := top.content[at := node.(content := entries[..kept])];
        root := WithTop(root, top.content);
      }
    }
  }

  lemma {:induction false} ClearAfterSetContent(c: seq<Tree>, key: string, x: seq<Tree>)
    ensures Put(SetContent(c, key, x), key, Text("")) == Put(c, key, Text(""))
  {
    if |c| >= 2 && c[0].value != key {
      ClearAfterSetContent(c[2..], key, x);
      PairThen(c[0], c[1], SetContent(c[2..], key, x));
      assert c[..2] == [c[0], c[1]];
    }
  }
}
