/**
 * The edits the daemon makes to config.yaml: global settings, the voice key,
 * profiles and agents. Each one reports whether it changed the document, and
 * the file is rewritten only then.
 */
module ConfigEditor {
  import opened Seqs
  import opened ConfigTree
  import Decimal

  const DEFAULT_ARCHIVE_DAYS: int := 7
  const EMPTY_MAPPING: Tree := Tree(MappingNode, "", 0, "", "", [])
  const EMPTY_SEQUENCE: Tree := Tree(SequenceNode, "", 0, "", "", [])
  const VOICE_KEY: string := "openai_api_key"

  datatype Global = Global(
    provider: string, profile: string, model: string, effort: string, permissionMode: string,
    permissionTimeout: string, fallback: seq<string>, collapseReasoning: bool, autoArchiveDays: int)

  datatype Profile = Profile(name: string, provider: string, configDir: string, homeDir: string)

  function RenderInt(n: int): string {
    if n < 0 then "-" + Decimal.Render(-n) else Decimal.Render(n)
  }

  function GlobalSettings(g: Global): (r: seq<Setting>)
    ensures |r| == 9
  {
    [ Setting("provider", Text(g.provider)),
      Setting("profile", Text(g.profile)),
      Setting("model", Text(g.model)),
      Setting("effort", Text(g.effort)),
      Setting("permission_mode", Text(g.permissionMode)),
      Setting("permission_timeout", Text(g.permissionTimeout)),
      Setting("fallback", List(g.fallback)),
      Setting("auto_archive_days", Text(RenderInt(if g.autoArchiveDays == 0 then DEFAULT_ARCHIVE_DAYS else g.autoArchiveDays))),
      Setting("collapse_reasoning", Text(if g.collapseReasoning then "true" else "")) ]
  }

  // ------------------------------------------------------- documents as lists

  /** The top-level node: a parsed file is a document node around it. */
  function Top(root: Tree): Tree {
    if root.kind == DocumentNode && root.content != [] then root.content[0] else root
  }

  function WithTop(root: Tree, content: seq<Tree>): Tree {
    if root.kind == DocumentNode && root.content != []
    then root.(content := root.content[0 := root.content[0].(content := content)])
    else root.(content := content)
  }

  lemma WithTopAct(root: Tree, content: seq<Tree>)
    ensures Top(WithTop(root, content)).content == content || Top(root).kind == DocumentNode
    ensures Top(root).kind == MappingNode ==> (WithTop(root, content) == root <==> content == Top(root).content)
  {
    if root.kind == DocumentNode && root.content != [] {
      var t := root.content[0].(content := content);
      assert root.content[0 := t][0] == t;
      if content == root.content[0].content { assert root.content[0 := t] == root.content; }
    }
  }

  /** An edit of a parsed file goes into the mapping inside its document node, and into nothing else; a bare mapping is edited itself. */
  lemma EditsTheMapping(root: Tree, content: seq<Tree>)
    ensures root.kind == MappingNode ==>
      Top(root) == root && WithTop(root, content) == Tree(MappingNode, root.tag, root.style, root.value, root.comment, content)
    ensures root.kind == DocumentNode && root.content != [] ==>
      var m, after := root.content[0], WithTop(root, content);
      && Top(root) == m
      && after == Tree(DocumentNode, root.tag, root.style, root.value, root.comment, after.content)
      && after.content == [Tree(m.kind, m.tag, m.style, m.value, m.comment, content)] + root.content[1..]
    ensures root.kind == DocumentNode && root.content == [] ==> Top(root).kind != MappingNode
  {
  }

  function ChildContent(c: seq<Tree>, key: string): seq<Tree> {
    if Lookup(c, key).Some? then Lookup(c, key).value.content else []
  }

  function WithKey(c: seq<Tree>, key: string, node: Tree): seq<Tree> {
    if Lookup(c, key).Some? then c else c + [Leaf(key), node]
  }

  function GlobalDoc(c: seq<Tree>, g: Global): seq<Tree> {
    SetContent(WithKey(c, "global", EMPTY_MAPPING), "global", PutAll(ChildContent(c, "global"), GlobalSettings(g)))
  }

  function VoiceDoc(c: seq<Tree>, key: string): seq<Tree> {
    if Lookup(c, "voice").None? && key == "" then c
    else
      var content := Put(ChildContent(c, "voice"), VOICE_KEY, Text(key));
      if content == [] then Put(c, "voice", Text(""))
      else SetContent(WithKey(c, "voice", EMPTY_MAPPING), "voice", content)
  }

  // ------------------------------------------------------------- theorems

  lemma GlobalKeysAreDistinct(g: Global)
    ensures Distinct(SettingKeys(GlobalSettings(g)))
    ensures GlobalSettings(g)[7].write.Text? && !Clears(GlobalSettings(g)[7].write)
  {
    var keys := SettingKeys(GlobalSettings(g));
    assert keys == ["provider", "profile", "model", "effort", "permission_mode", "permission_timeout",
                    "fallback", "auto_archive_days", "collapse_reasoning"];
  }

  /** Where setGlobal puts its settings, and what it leaves alone. */
  lemma {:induction false} GlobalDocAct(c: seq<Tree>, g: Global)
    requires Even(c)
    ensures var after := GlobalDoc(c, g);
      && Lookup(after, "global").Some?
      && ChildContent(after, "global") == PutAll(ChildContent(c, "global"), GlobalSettings(g))
      && Lookup(after, "global").value.kind == (if Lookup(c, "global").Some? then Lookup(c, "global").value.kind else MappingNode)
      && Others(after, "global") == Others(c, "global")
      && Even(after)
  {
    var content := PutAll(ChildContent(c, "global"), GlobalSettings(g));
    var start := WithKey(c, "global", EMPTY_MAPPING);
    if Lookup(c, "global").None? { AppendKey(c, "global", EMPTY_MAPPING); }
    SetContentAct(start, "global", content);
  }

  /** setGlobal reports a change exactly when it made one. */
  lemma GlobalFlagIsExact(c: seq<Tree>, g: Global)
    requires Even(c) && Even(ChildContent(c, "global"))
    ensures AnyChange(ChildContent(c, "global"), GlobalSettings(g)) <==> GlobalDoc(c, g) != c
  {
    var was, ws := ChildContent(c, "global"), GlobalSettings(g);
    GlobalKeysAreDistinct(g);
    AnyChangeIsExact(was, ws);
    if Lookup(c, "global").Some? {
      SetContentTwice(c, "global", PutAll(was, ws), []);
    } else {
      AppendKey(c, "global", EMPTY_MAPPING);
      assert |GlobalDoc(c, g)| == |c| + 2;
      PutAllIsIdle([], ws);
      assert !Settled(Only([], ws[7].key), ws[7].write);
    }
  }

  /** A second setGlobal changes nothing exactly when no setting it clears was there more than once. */
  lemma SecondSetGlobalIsIdle(c: seq<Tree>, g: Global)
    requires Even(c) && Even(ChildContent(c, "global"))
    ensures GlobalDoc(GlobalDoc(c, g), g) == GlobalDoc(c, g)
      <==> forall s :: s in GlobalSettings(g) && Clears(s.write) ==> |Only(ChildContent(c, "global"), s.key)| <= 2
  {
    var was, ws := ChildContent(c, "global"), GlobalSettings(g);
    GlobalKeysAreDistinct(g);
    GlobalDocAct(c, g);
    PutAllTwice(was, ws);
    SetContentTwice(GlobalDoc(c, g), "global", PutAll(PutAll(was, ws), ws), []);
    assert forall i :: 0 <= i < |ws| ==> ws[i] in ws;
  }

  lemma UniqueKeysAreSetOnce(c: seq<Tree>, g: Global)
    requires Even(c) && Even(ChildContent(c, "global")) && Distinct(Keys(ChildContent(c, "global")))
    ensures GlobalDoc(GlobalDoc(c, g), g) == GlobalDoc(c, g)
  {
    forall s | s in GlobalSettings(g) ensures |Only(ChildContent(c, "global"), s.key)| <= 2 {
      DistinctKeyOnce(ChildContent(c, "global"), s.key);
    }
    SecondSetGlobalIsIdle(c, g);
  }

  /** What a reader finds under a key of a node: only mappings have keys. */
  function ReadKey(node: Tree, key: string): Option<Tree> {
    if node.kind == MappingNode then Lookup(node.content, key) else None
  }

  /** A text that was asked for is found under its key. */
  predicate FindsText(node: Tree, key: string, text: string) {
    text != "" ==>
      ReadKey(node, key).Some? && ReadKey(node, key).value.kind == ScalarNode && ReadKey(node, key).value.value == text
  }

  predicate FindsList(node: Tree, key: string, values: seq<string>) {
    values != [] ==>
      && ReadKey(node, key).Some? && ReadKey(node, key).value.kind == SequenceNode
      && var elements := ReadKey(node, key).value.content;
      |elements| == |values| && forall i :: 0 <= i < |values| ==> elements[i].value == values[i]
  }

  predicate FindsNumber(node: Tree, key: string, n: int) {
    FindsText(node, key, if n < 0 then "-" + Decimal.Render(-n) else Decimal.Render(n))
  }

  /** Every setting that has a value is found under its own key. */
  predicate FindsGlobal(node: Tree, g: Global) {
    && FindsText(node, "provider", g.provider) && FindsText(node, "profile", g.profile)
    && FindsText(node, "model", g.model) && FindsText(node, "effort", g.effort)
    && FindsText(node, "permission_mode", g.permissionMode)
    && FindsText(node, "permission_timeout", g.permissionTimeout)
    && FindsList(node, "fallback", g.fallback)
    && FindsNumber(node, "auto_archive_days", if g.autoArchiveDays == 0 then 7 else g.autoArchiveDays)
    && FindsText(node, "collapse_reasoning", if g.collapseReasoning then "true" else "")
  }

  predicate Finds(node: Tree, s: Setting) {
    match s.write
    case Text(text) => FindsText(node, s.key, text)
    case List(values) => FindsList(node, s.key, values)
  }

  lemma NineAreFound(node: Tree, g: Global)
    requires forall i :: 0 <= i < 9 ==> Finds(node, GlobalSettings(g)[i])
    ensures FindsGlobal(node, g)
  {
    var ws := GlobalSettings(g);
    assert Finds(node, ws[0]) && Finds(node, ws[1]) && Finds(node, ws[2]) && Finds(node, ws[3]) && Finds(node, ws[4]);
    assert Finds(node, ws[5]) && Finds(node, ws[6]) && Finds(node, ws[7]) && Finds(node, ws[8]);
  }

  lemma {:induction false} WrittenIsFound(was: seq<Tree>, node: Tree, ws: seq<Setting>, i: nat)
    requires Even(was) && Distinct(SettingKeys(ws)) && i < |ws| && node.kind == MappingNode && node.content == PutAll(was, ws)
    ensures Finds(node, ws[i])
  {
    var s := ws[i];
    PutAllOnly(was, ws, i);
    LookupIsFirst(node.content, s.key);
    LookupIsFirst(was, s.key);
    if |Only(was, s.key)| >= 2 { RewrittenShows(Only(was, s.key)[1], s.write); } else { RewrittenShows(EMPTY_MAPPING, s.write); }
  }

  /**
   * The settings written can be read back exactly when `global` was missing or
   * a mapping: the setters also write below a node of another kind, where
   * nothing reads them.
   */
  lemma {:induction false} SettingsReadBack(c: seq<Tree>, g: Global)
    requires Even(c) && Even(ChildContent(c, "global"))
    ensures Lookup(GlobalDoc(c, g), "global").Some?
    ensures FindsGlobal(Lookup(GlobalDoc(c, g), "global").value, g)
      <==> Lookup(c, "global").None? || Lookup(c, "global").value.kind == MappingNode
  {
    var was, ws := ChildContent(c, "global"), GlobalSettings(g);
    GlobalKeysAreDistinct(g);
    GlobalDocAct(c, g);
    var node := Lookup(GlobalDoc(c, g), "global").value;
    if node.kind == MappingNode {
      forall i | 0 <= i < 9 ensures Finds(node, ws[i]) { WrittenIsFound(was, node, ws, i); }
      NineAreFound(node, g);
    } else {
      assert ReadKey(node, "auto_archive_days").None?;
    }
  }

  // ------------------------------------------- which key carries which setting

  /** A reader finds this text under a key, or nothing if there is no text. */
  predicate ReadsText(c: seq<Tree>, key: string, text: string) {
    if text == "" then Lookup(c, key) == None
    else Lookup(c, key).Some? && Lookup(c, key).value.kind == ScalarNode && Lookup(c, key).value.value == text
  }

  /** A reader finds this list under a key, or nothing if it is empty. */
  predicate ReadsList(c: seq<Tree>, key: string, values: seq<string>) {
    if values == [] then Lookup(c, key) == None
    else
      && Lookup(c, key).Some? && Lookup(c, key).value.kind == SequenceNode
      && var elements := Lookup(c, key).value.content;
      |elements| == |values| && forall i :: 0 <= i < |values| ==> elements[i].value == values[i]
  }

  predicate ReadsNumber(c: seq<Tree>, key: string, n: int) {
    ReadsText(c, key, if n < 0 then "-" + Decimal.Render(-n) else Decimal.Render(n))
  }

  /** What a reader of the global mapping finds: each setting under its own key. */
  predicate ShowsGlobal(c: seq<Tree>, g: Global) {
    && ReadsText(c, "provider", g.provider)
    && ReadsText(c, "profile", g.profile)
    && ReadsText(c, "model", g.model)
    && ReadsText(c, "effort", g.effort)
    && ReadsText(c, "permission_mode", g.permissionMode)
    && ReadsText(c, "permission_timeout", g.permissionTimeout)
    && ReadsList(c, "fallback", g.fallback)
    && ReadsNumber(c, "auto_archive_days", if g.autoArchiveDays == 0 then 7 else g.autoArchiveDays)
    && ReadsText(c, "collapse_reasoning", if g.collapseReasoning then "true" else "")
  }

  predicate Reads(c: seq<Tree>, key: string, w: Write) {
    match w
    case Text(text) => ReadsText(c, key, text)
    case List(values) => ReadsList(c, key, values)
  }

  lemma {:induction false} SettingIsRead(was: seq<Tree>, ws: seq<Setting>, i: nat)
    requires Even(was) && Distinct(Keys(was)) && Distinct(SettingKeys(ws)) && i < |ws|
    ensures Reads(PutAll(was, ws), ws[i].key, ws[i].write)
  {
    var key, w := ws[i].key, ws[i].write;
    PutAllOnly(was, ws, i);
    DistinctKeyOnce(was, key);
    LookupIsFirst(was, key);
    LookupIsFirst(PutAll(was, ws), key);
    RewrittenShows(if |Only(was, key)| == 2 then Only(was, key)[1] else EMPTY_MAPPING, w);
  }

  /** After setGlobal each setting is found under its own key, if `global` was missing or a mapping with unique keys. */
  lemma {:induction false} GlobalReadsBack(c: seq<Tree>, g: Global)
    requires Even(c) && Even(ChildContent(c, "global")) && Distinct(Keys(ChildContent(c, "global")))
    requires Lookup(c, "global").None? || Lookup(c, "global").value.kind == MappingNode
    ensures Lookup(GlobalDoc(c, g), "global").Some? && Lookup(GlobalDoc(c, g), "global").value.kind == MappingNode
    ensures ShowsGlobal(ChildContent(GlobalDoc(c, g), "global"), g)
  {
    var was, ws := ChildContent(c, "global"), GlobalSettings(g);
    GlobalKeysAreDistinct(g);
    GlobalDocAct(c, g);
    forall i | 0 <= i < 9 ensures Reads(PutAll(was, ws), ws[i].key, ws[i].write) { SettingIsRead(was, ws, i); }
    assert forall i :: 0 <= i < 9 ==> Reads(PutAll(was, ws), ws[i].key, ws[i].write);
    NineAreRead(PutAll(was, ws), g);
  }

  lemma NineAreRead(c: seq<Tree>, g: Global)
    requires var ws := GlobalSettings(g); forall i :: 0 <= i < 9 ==> Reads(c, ws[i].key, ws[i].write)
    ensures ShowsGlobal(c, g)
  {
    var ws := GlobalSettings(g);
    assert Reads(c, ws[0].key, ws[0].write) && Reads(c, ws[1].key, ws[1].write) && Reads(c, ws[2].key, ws[2].write);
    assert Reads(c, ws[3].key, ws[3].write) && Reads(c, ws[4].key, ws[4].write) && Reads(c, ws[5].key, ws[5].write);
    assert Reads(c, ws[6].key, ws[6].write) && Reads(c, ws[7].key, ws[7].write) && Reads(c, ws[8].key, ws[8].write);
  }

  /** Such a document: `global:` with nothing after it. Its settings are written, reported, and not found again. */
  lemma SettingsUnderAScalar(g: Global)
    ensures var c := [Leaf("global"), Leaf("")];
      && GlobalDoc(c, g) != c
      && Lookup(GlobalDoc(c, g), "global").Some?
      && ReadKey(Lookup(GlobalDoc(c, g), "global").value, "auto_archive_days") == None
  {
    var c := [Leaf("global"), Leaf("")];
    GlobalDocAct(c, g);
    GlobalFlagIsExact(c, g);
    GlobalKeysAreDistinct(g);
    PutAllIsIdle([], GlobalSettings(g));
    AnyChangeIsExact([], GlobalSettings(g));
    assert !Settled(Only([], GlobalSettings(g)[7].key), GlobalSettings(g)[7].write);
  }

  /** Keys of the global mapping that the Settings page does not own keep their pairs. */
  lemma {:induction false} UnownedKeysStay(c: seq<Tree>, g: Global, key: string)
    requires Even(c) && Even(ChildContent(c, "global")) && key !in SettingKeys(GlobalSettings(g))
    ensures Only(ChildContent(GlobalDoc(c, g), "global"), key) == Only(ChildContent(c, "global"), key)
  {
    GlobalDocAct(c, g);
    PutAllKeepsOther(ChildContent(c, "global"), GlobalSettings(g), key);
  }

  // ------------------------------------------------------------------ voice

  predicate VoiceChanges(c: seq<Tree>, key: string) {
    if Lookup(c, "voice").None? then key != ""
    else
      var content := Put(ChildContent(c, "voice"), VOICE_KEY, Text(key));
      content != ChildContent(c, "voice") || content == []
  }

  lemma {:induction false} PutLength(c: seq<Tree>, key: string, w: Write)
    ensures Clears(w) && Lookup(c, key).Some? ==> |Put(c, key, w)| == |c| - 2
    ensures Clears(w) && Lookup(c, key).None? ==> Put(c, key, w) == c
    ensures !Clears(w) ==> |Put(c, key, w)| == if Lookup(c, key).Some? then |c| else |c| + 2
  {
    if |c| >= 2 {
      PutLength(c[2..], key, w);
    }
  }

  lemma VoiceFlagIsExact(c: seq<Tree>, key: string)
    requires Even(c)
    ensures VoiceChanges(c, key) <==> VoiceDoc(c, key) != c
  {
    var was := ChildContent(c, "voice");
    var content := Put(was, VOICE_KEY, Text(key));
    PutLength(c, "voice", Text(""));
    PutLength(was, VOICE_KEY, Text(key));
    if Lookup(c, "voice").Some? {
      SetContentTwice(c, "voice", content, []);
    } else if key != "" {
      AppendKey(c, "voice", EMPTY_MAPPING);
      assert |VoiceDoc(c, key)| == |c| + 2;
    }
  }

  /**
   * Setting a voice key and clearing it again restores the document exactly when
   * it had no voice block, or one that held other keys but not this one.
   */
  lemma {:induction false} ClearingRestoresVoice(c: seq<Tree>, key: string)
    requires Even(c) && Even(ChildContent(c, "voice")) && key != ""
    ensures VoiceDoc(VoiceDoc(c, key), "") == c <==>
      (Lookup(c, "voice").None?
       || (ChildContent(c, "voice") != [] && Lookup(ChildContent(c, "voice"), VOICE_KEY).None?))
  {
    var was := ChildContent(c, "voice");
    var set1 := Put(was, VOICE_KEY, Text(key));
    PutLength(was, VOICE_KEY, Text(key));
    PutLength(set1, VOICE_KEY, Text(""));
    var start := WithKey(c, "voice", EMPTY_MAPPING);
    SetContentAct(start, "voice", set1);
    if Lookup(c, "voice").None? {
      AppendKey(c, "voice", EMPTY_MAPPING);
      AppendKey(c, "voice", EMPTY_MAPPING.(content := set1));
      PutAddsPair([], VOICE_KEY, key);
    } else {
      var mid := VoiceDoc(c, key);
      assert mid == SetContent(c, "voice", set1);
      var set2 := Put(set1, VOICE_KEY, Text(""));
      SetContentTwice(c, "voice", set1, set2);
      SetContentTwice(c, "voice", set2, []);
      PutLength(mid, "voice", Text(""));
      PutAddsPair(was, VOICE_KEY, key);
    }
  }

  /**
   * After setVoice the key is found in the voice block, or is not there if it was
   * cleared; the rest of the block stays, and a block left empty goes.
   */
  lemma {:induction false} VoiceReadsBack(c: seq<Tree>, key: string)
    requires Even(c) && Even(ChildContent(c, "voice")) && Distinct(Keys(c)) && Distinct(Keys(ChildContent(c, "voice")))
    ensures var was, after := ChildContent(c, "voice"), ChildContent(VoiceDoc(c, key), "voice");
      && ReadsText(after, "openai_api_key", key)
      && Others(after, "openai_api_key") == Others(was, "openai_api_key")
      && Others(VoiceDoc(c, key), "voice") == Others(c, "voice")
      && (Lookup(VoiceDoc(c, key), "voice").Some? ==>
            && after != []
            && (Lookup(c, "voice").None? || Lookup(c, "voice").value.kind == MappingNode ==>
                  Lookup(VoiceDoc(c, key), "voice").value.kind == MappingNode))
  {
    var was := ChildContent(c, "voice");
    var content := Put(was, VOICE_KEY, Text(key));
    SettingIsRead(was, [Setting(VOICE_KEY, Text(key))], 0);
    assert [Setting(VOICE_KEY, Text(key))][1..] == [];
    assert PutAll(was, [Setting(VOICE_KEY, Text(key))]) == content;
    PutOthers(was, VOICE_KEY, Text(key));
    if content == [] {
      DropsTheBlock(c);
    } else if Lookup(c, "voice").Some? || key != "" {
      var start := WithKey(c, "voice", EMPTY_MAPPING);
      if Lookup(c, "voice").None? { AppendKey(c, "voice", EMPTY_MAPPING); }
      SetContentAct(start, "voice", content);
    }
  }

  lemma {:induction false} DropsTheBlock(c: seq<Tree>)
    requires Even(c) && Distinct(Keys(c))
    ensures Lookup(Put(c, "voice", Text("")), "voice").None? && Others(Put(c, "voice", Text("")), "voice") == Others(c, "voice")
  {
    PutOthers(c, "voice", Text(""));
    PutOnly(c, "voice", Text(""));
    DistinctKeyOnce(c, "voice");
    LookupIsFirst(c, "voice");
    LookupIsFirst(Put(c, "voice", Text("")), "voice");
  }

  /** A new key is one pair at the end, which clearing it takes away again. */
  lemma {:induction false} PutAddsPair(c: seq<Tree>, key: string, value: string)
    requires Even(c) && value != ""
    ensures Lookup(c, key).None? ==> Put(Put(c, key, Text(value)), key, Text("")) == c
  {
    if Lookup(c, key).None? {
      AppendKey(c, key, Leaf(value));
      PutAppends(c, key, Text(value));
    }
  }

  lemma {:induction false} PutAppends(c: seq<Tree>, key: string, w: Write)
    requires Lookup(c, key).None? && !Clears(w)
    ensures Put(c, key, w) == c + [Leaf(key), Fresh(w)]
  {
    if |c| >= 2 {
      PutAppends(c[2..], key, w);
      Assoc(c[..2], c[2..], [Leaf(key), Fresh(w)]);
    }
  }

}
