/** The profile and agent lists of config.yaml: entries are mappings found by their name. */
module ConfigProfiles {
  import opened Seqs
  import opened ConfigTree
  import opened ConfigEditor

  const DIR_KEYS: map<string, string> := map["claude" := "config_dir", "codex" := "home_dir"]

  predicate KnownProvider(provider: string) {
    provider in DIR_KEYS
  }

  function Dir(p: Profile): string {
    if KnownProvider(p.provider) && DIR_KEYS[p.provider] == "home_dir" then p.homeDir else p.configDir
  }

  function ProfileNode(p: Profile): Tree {
    var named := [Leaf("name"), Leaf(p.name), Leaf("provider"), Leaf(p.provider)];
    EMPTY_MAPPING.(content := if KnownProvider(p.provider) then named + [Leaf(DIR_KEYS[p.provider]), Leaf(Dir(p))] else named)
  }

  /** profileNodeName and agentNodeName */
  function NodeName(node: Tree): string {
    if node.kind == MappingNode && Lookup(node.content, "name").Some? then Lookup(node.content, "name").value.value else ""
  }

  /** The values by key; where a key repeats, the last one counts. */
  function ValuesOf(c: seq<Tree>): map<string, string> {
    if |c| < 2 then map[] else map[c[0].value := c[1].value] + ValuesOf(c[2..])
  }

  function ValueAt(values: map<string, string>, key: string): string {
    if key in values then values[key] else ""
  }

  predicate ProfileEqual(node: Tree, p: Profile) {
    && node.kind == MappingNode
    && var values := ValuesOf(node.content);
    && ValueAt(values, "name") == p.name
    && ValueAt(values, "provider") == p.provider
    && KnownProvider(p.provider)
    && ValueAt(values, DIR_KEYS[p.provider]) == Dir(p)
    && ValueAt(values, if DIR_KEYS[p.provider] == "home_dir" then "config_dir" else "home_dir") == ""
  }

  function Upserted(entries: seq<Tree>, p: Profile): seq<Tree> {
    if entries == [] then [ProfileNode(p)]
    else if NodeName(entries[0]) != p.name then [entries[0]] + Upserted(entries[1..], p)
    else if ProfileEqual(entries[0], p) then entries
    else [ProfileNode(p)] + entries[1..]
  }

  /** What upsertProfile returns for a list of entries. */
  predicate UpsertReports(entries: seq<Tree>, p: Profile) {
    if entries == [] then true
    else if NodeName(entries[0]) != p.name then UpsertReports(entries[1..], p)
    else !ProfileEqual(entries[0], p)
  }

  function Unnamed(entries: seq<Tree>, name: string): seq<Tree> {
    if entries == [] then []
    else if NodeName(entries[0]) == name then Unnamed(entries[1..], name)
    else [entries[0]] + Unnamed(entries[1..], name)
  }

  function UpsertDoc(c: seq<Tree>, p: Profile): seq<Tree> {
    var start := WithKey(c, "profiles", EMPTY_SEQUENCE);
    if Lookup(start, "profiles").Some? && Lookup(start, "profiles").value.kind == SequenceNode
    then SetContent(start, "profiles", Upserted(ChildContent(c, "profiles"), p))
    else start
  }

  function UnnamedDoc(c: seq<Tree>, list: string, name: string): seq<Tree> {
    if Lookup(c, list).Some? && Lookup(c, list).value.kind == SequenceNode
    then SetContent(c, list, Unnamed(ChildContent(c, list), name))
    else c
  }

  function RemoveProfileDoc(c: seq<Tree>, name: string): seq<Tree> {
    UnnamedDoc(c, "profiles", name)
  }

  // ----------------------------------------------------------------- lemmas

  /** A profile's own node carries its name, and for a known provider it equals the profile. */
  lemma NodeStandsForProfile(p: Profile)
    ensures NodeName(ProfileNode(p)) == p.name
    ensures KnownProvider(p.provider) ==> ProfileEqual(ProfileNode(p), p)
  {
    var c := ProfileNode(p).content;
    assert c[2..][0] == Leaf("provider") && c[2..][1] == Leaf(p.provider);
    if KnownProvider(p.provider) {
      var tail := c[2..][2..];
      assert tail == [Leaf(DIR_KEYS[p.provider]), Leaf(Dir(p))] && tail[2..] == [];
      assert ValuesOf(tail) == map[DIR_KEYS[p.provider] := Dir(p)];
      assert ValuesOf(c[2..]) == map["provider" := p.provider] + ValuesOf(tail);
      assert ValuesOf(c) == map["name" := p.name] + ValuesOf(c[2..]);
    }
  }

  /** Adding or replacing a profile and then dropping its name is just dropping the name. */
  lemma {:induction false} UnnamedAfterUpsert(entries: seq<Tree>, p: Profile)
    ensures Unnamed(Upserted(entries, p), p.name) == Unnamed(entries, p.name)
  {
    NodeStandsForProfile(p);
    if entries == [] {
      assert [ProfileNode(p)][1..] == [];
    } else if NodeName(entries[0]) != p.name {
      UnnamedAfterUpsert(entries[1..], p);
    }
  }

  /** The first entry with a name. */
  function Named(entries: seq<Tree>, name: string): Option<Tree> {
    if entries == [] then None
    else if NodeName(entries[0]) == name then Some(entries[0])
    else Named(entries[1..], name)
  }

  /** upsertProfile's report is exact, except that it always reports a change for an unknown provider. */
  lemma {:induction false} UpsertReportIsExact(entries: seq<Tree>, p: Profile)
    ensures (UpsertReports(entries, p) <==> Upserted(entries, p) != entries)
      <==> KnownProvider(p.provider) || Named(entries, p.name) != Some(ProfileNode(p))
  {
    NodeStandsForProfile(p);
    if entries != [] {
      assert entries == [entries[0]] + entries[1..];
      if NodeName(entries[0]) != p.name {
        UpsertReportIsExact(entries[1..], p);
        assert Upserted(entries, p)[1..] == Upserted(entries[1..], p);
      } else if !ProfileEqual(entries[0], p) {
        assert Upserted(entries, p)[0] == ProfileNode(p);
      }
    }
  }

  /** Such a list: it holds the very entry that is written, and a change is reported all the same. */
  lemma AnUnknownProviderReports()
    ensures var p := Profile("p", "other", "", "");
      UpsertReports([ProfileNode(p)], p) && Upserted([ProfileNode(p)], p) == [ProfileNode(p)]
  {
    var p := Profile("p", "other", "", "");
    NodeStandsForProfile(p);
    assert [ProfileNode(p)][1..] == [];
  }

  /** Upserting a known provider's profile again changes nothing and reports nothing. */
  lemma {:induction false} UpsertSettles(entries: seq<Tree>, p: Profile)
    requires KnownProvider(p.provider)
    ensures !UpsertReports(Upserted(entries, p), p) && Upserted(Upserted(entries, p), p) == Upserted(entries, p)
  {
    NodeStandsForProfile(p);
    if entries != [] && NodeName(entries[0]) != p.name {
      UpsertSettles(entries[1..], p);
      assert Upserted(entries, p)[1..] == Upserted(entries[1..], p);
    }
  }

  /** Removing a name keeps exactly the entries with other names, and changes a list exactly when it has the name. */
  lemma {:induction false} UnnamedIsExact(entries: seq<Tree>, name: string)
    ensures forall e :: e in Unnamed(entries, name) <==> e in entries && NodeName(e) != name
    ensures |Unnamed(entries, name)| <= |entries|
    ensures Unnamed(entries, name) != entries <==> Named(entries, name).Some?
    ensures Named(entries, name).Some? ==> |Unnamed(entries, name)| < |entries|
  {
    if entries != [] {
      UnnamedIsExact(entries[1..], name);
      assert entries == [entries[0]] + entries[1..];
      if NodeName(entries[0]) != name {
        assert Unnamed(entries, name)[1..] == Unnamed(entries[1..], name);
      }
    }
  }

  /**
   * Removing a profile just upserted gives the same document as removing it
   * outright exactly when the document already had a `profiles` key; without
   * one, an empty list stays behind.
   */
  lemma {:induction false} RemoveAfterUpsert(c: seq<Tree>, p: Profile)
    requires Even(c)
    ensures RemoveProfileDoc(UpsertDoc(c, p), p.name) == RemoveProfileDoc(c, p.name) <==> Lookup(c, "profiles").Some?
    ensures Lookup(c, "profiles").None? ==>
      RemoveProfileDoc(UpsertDoc(c, p), p.name) == c + [Leaf("profiles"), EMPTY_SEQUENCE]
  {
    var was := ChildContent(c, "profiles");
    var put := Upserted(was, p);
    UnnamedAfterUpsert(was, p);
    if Lookup(c, "profiles").Some? {
      if Lookup(c, "profiles").value.kind == SequenceNode {
        SetContentAct(c, "profiles", put);
        SetContentTwice(c, "profiles", put, Unnamed(put, p.name));
      }
    } else {
      AppendKey(c, "profiles", EMPTY_SEQUENCE);
      AppendKey(c, "profiles", EMPTY_SEQUENCE.(content := put));
      assert UpsertDoc(c, p) == c + [Leaf("profiles"), EMPTY_SEQUENCE.(content := put)];
      assert |RemoveProfileDoc(UpsertDoc(c, p), p.name)| == |c| + 2;
    }
  }

  /** Such a document: the empty one. */
  lemma AnEmptyListStays(p: Profile)
    ensures RemoveProfileDoc([], p.name) == []
    ensures RemoveProfileDoc(UpsertDoc([], p), p.name) == [Leaf("profiles"), EMPTY_SEQUENCE]
  {
    RemoveAfterUpsert([], p);
    assert [] + [Leaf("profiles"), EMPTY_SEQUENCE] == [Leaf("profiles"), EMPTY_SEQUENCE];
  }

  /** What a reader of an entry finds of a profile: its name, its provider, and its directory under that provider's key. */
  predicate ShowsProfile(node: Tree, p: Profile) {
    && node.kind == MappingNode
    && var values := ValuesOf(node.content);
    && ValueAt(values, "name") == p.name && ValueAt(values, "provider") == p.provider
    && (p.provider == "claude" ==> ValueAt(values, "config_dir") == p.configDir && ValueAt(values, "home_dir") == "")
    && (p.provider == "codex" ==> ValueAt(values, "home_dir") == p.homeDir && ValueAt(values, "config_dir") == "")
  }

  lemma EqualShows(node: Tree, p: Profile)
    ensures ProfileEqual(node, p) ==> ShowsProfile(node, p)
  {
  }

  lemma NodeShows(p: Profile)
    ensures ShowsProfile(ProfileNode(p), p)
  {
    NodeStandsForProfile(p);
    EqualShows(ProfileNode(p), p);
    if !KnownProvider(p.provider) {
      var c := ProfileNode(p).content;
      assert c[2..] == [Leaf("provider"), Leaf(p.provider)] && c[2..][2..] == [];
      assert ValuesOf(c[2..]) == map["provider" := p.provider];
      assert ValuesOf(c) == map["name" := p.name] + ValuesOf(c[2..]);
    }
  }

  /** After an upsert the first entry with the name shows the profile. */
  lemma {:induction false} UpsertedIsRead(entries: seq<Tree>, p: Profile)
    ensures Named(Upserted(entries, p), p.name).Some? && ShowsProfile(Named(Upserted(entries, p), p.name).value, p)
  {
    NodeStandsForProfile(p);
    NodeShows(p);
    if entries != [] {
      if NodeName(entries[0]) != p.name { UpsertedIsRead(entries[1..], p); } else { EqualShows(entries[0], p); }
    }
  }

  predicate UpsertDocReports(c: seq<Tree>, p: Profile) {
    if Lookup(c, "profiles").None? then true
    else Lookup(c, "profiles").value.kind == SequenceNode && UpsertReports(ChildContent(c, "profiles"), p)
  }

  /** The same exactness for the whole document. */
  lemma {:induction false} UpsertDocReportIsExact(c: seq<Tree>, p: Profile)
    requires Even(c)
    ensures (UpsertDocReports(c, p) <==> UpsertDoc(c, p) != c)
      <==> (Lookup(c, "profiles").None? || Lookup(c, "profiles").value.kind != SequenceNode || KnownProvider(p.provider)
            || Named(ChildContent(c, "profiles"), p.name) != Some(ProfileNode(p)))
  {
    var was := ChildContent(c, "profiles");
    UpsertReportIsExact(was, p);
    if Lookup(c, "profiles").None? {
      AppendKey(c, "profiles", EMPTY_SEQUENCE);
      assert |UpsertDoc(c, p)| == |c| + 2;
    } else {
      SetContentTwice(c, "profiles", Upserted(was, p), []);
    }
  }

  lemma {:induction false} RemoveReportIsExact(c: seq<Tree>, list: string, name: string)
    ensures UnnamedDoc(c, list, name) != c
      <==> Lookup(c, list).Some? && Lookup(c, list).value.kind == SequenceNode && Named(ChildContent(c, list), name).Some?
  {
    UnnamedIsExact(ChildContent(c, list), name);
    if Lookup(c, list).Some? {
      SetContentTwice(c, list, Unnamed(ChildContent(c, list), name), []);
    }
  }
}
