/** Overlaying supplied NAME=value pairs on an environment list, by filtering the list in place and appending. */
module EnvOverlay {
  import opened Seqs

  /** The text before the first '='; None when there is none. */
  function NameOf(entry: string): Option<string> {
    if entry == "" then None
    else if entry[0] == '=' then Some("")
    else
      var rest := NameOf(entry[1..]);
      if rest.None? then None else Some([entry[0]] + rest.value)
  }

  /** A pair without '=' or without a name is ignored. */
  predicate WellFormed(pair: string) {
    NameOf(pair).Some? && NameOf(pair).value != ""
  }

  predicate HasName(entry: string, name: string) {
    name + "=" <= entry
  }

  /** An entry starts with a name and '=' exactly when that is its own name: a longer name never matches. */
  lemma {:induction false} PrefixIsName(entry: string, name: string)
    requires '=' !in name
    ensures HasName(entry, name) <==> NameOf(entry) == Some(name)
  {
    if entry != "" && name != "" {
      PrefixIsName(entry[1..], name[1..]);
      assert name + "=" == [name[0]] + (name[1..] + "=");
      assert entry == [entry[0]] + entry[1..];
      if NameOf(entry).Some? && NameOf(entry).value == name { assert NameOf(entry).value[1..] == name[1..]; }
    } else if entry != "" {
      assert "" + "=" == "=";
    }
  }

  lemma {:induction false} NamesHaveNoEquals(entry: string)
    ensures NameOf(entry).Some? ==> '=' !in NameOf(entry).value
  {
    if entry != "" { NamesHaveNoEquals(entry[1..]); }
  }

  /** A name is what stands before the first '='; a pair counts if it has one and a name before it. */
  lemma {:induction false} NamesEndAtEquals(entry: string)
    ensures NameOf(entry).None? <==> '=' !in entry
    ensures NameOf(entry).Some? ==> NameOf(entry).value + "=" <= entry && '=' !in NameOf(entry).value
    ensures WellFormed(entry) <==> '=' in entry && entry[0] != '='
  {
    NamesHaveNoEquals(entry);
    NoNameNoEquals(entry);
    if NameOf(entry).Some? { PrefixIsName(entry, NameOf(entry).value); }
  }

  lemma {:induction false} NoNameNoEquals(entry: string)
    ensures NameOf(entry).None? <==> '=' !in entry
  {
    if entry != "" {
      NoNameNoEquals(entry[1..]);
      assert entry == [entry[0]] + entry[1..];
    }
  }

  /** unsetEnv */
  function Unset(env: seq<string>, name: string): seq<string> {
    if env == [] then []
    else if HasName(env[0], name) then Unset(env[1..], name)
    else [env[0]] + Unset(env[1..], name)
  }

  /** applyExtraEnv */
  function Overlay(env: seq<string>, pairs: seq<string>): seq<string>
    decreases |pairs|
  {
    if pairs == [] then env
    else if !WellFormed(pairs[0]) then Overlay(env, pairs[1..])
    else Overlay(Unset(env, NameOf(pairs[0]).value) + [pairs[0]], pairs[1..])
  }

  // ------------------------------------------------- as an overriding of maps

  function Supplied(pairs: seq<string>): set<string> {
    if pairs == [] then {}
    else if WellFormed(pairs[0]) then {NameOf(pairs[0]).value} + Supplied(pairs[1..])
    else Supplied(pairs[1..])
  }

  /** The entries whose names are not among some, in order. */
  function Besides(env: seq<string>, names: set<string>): seq<string> {
    if env == [] then []
    else if NameOf(env[0]).Some? && NameOf(env[0]).value in names then Besides(env[1..], names)
    else [env[0]] + Besides(env[1..], names)
  }

  /** The pairs no later pair overrides, in order. */
  function Winners(pairs: seq<string>): seq<string> {
    if pairs == [] then []
    else if WellFormed(pairs[0]) && NameOf(pairs[0]).value !in Supplied(pairs[1..]) then [pairs[0]] + Winners(pairs[1..])
    else Winners(pairs[1..])
  }

  lemma {:induction false} UnsetThenBesides(env: seq<string>, name: string, names: set<string>)
    requires '=' !in name
    ensures Besides(Unset(env, name), names) == Besides(env, names + {name})
  {
    if env != [] {
      PrefixIsName(env[0], name);
      UnsetThenBesides(env[1..], name, names);
    }
  }

  lemma {:induction false} BesidesAppend(env: seq<string>, entry: string, names: set<string>)
    ensures Besides(env + [entry], names) ==
      if NameOf(entry).Some? && NameOf(entry).value in names then Besides(env, names) else Besides(env, names) + [entry]
  {
    if env == [] {
      assert env + [entry] == [entry];
    } else {
      TailOfConcat(env, [entry]);
      BesidesAppend(env[1..], entry, names);
    }
  }

  /**
   * The overlay is an override: first the entries with other names, as they
   * stood, and then the last pair supplied for each name.
   */
  lemma {:induction false} OverlayOverrides(env: seq<string>, pairs: seq<string>)
    ensures Overlay(env, pairs) == Besides(env, Supplied(pairs)) + Winners(pairs)
    decreases |pairs|
  {
    if pairs == [] {
      BesidesNothing(env);
    } else if !WellFormed(pairs[0]) {
      OverlayOverrides(env, pairs[1..]);
    } else {
      var name, later := NameOf(pairs[0]).value, Supplied(pairs[1..]);
      NamesHaveNoEquals(pairs[0]);
      OverlayOverrides(Unset(env, name) + [pairs[0]], pairs[1..]);
      BesidesAppend(Unset(env, name), pairs[0], later);
      UnsetThenBesides(env, name, later);
      assert later + {name} == Supplied(pairs);
      Assoc(Besides(env, Supplied(pairs)), [pairs[0]], Winners(pairs[1..]));
    }
  }

  lemma {:induction false} BesidesNothing(env: seq<string>)
    ensures Besides(env, {}) + [] == env
  {
    if env != [] { BesidesNothing(env[1..]); }
  }

  /** The entries with one name, in order. */
  function Named(env: seq<string>, name: string): seq<string> {
    if env == [] then []
    else if NameOf(env[0]) == Some(name) then [env[0]] + Named(env[1..], name)
    else Named(env[1..], name)
  }

  /** The last well-formed pair with a name. */
  function LastPair(pairs: seq<string>, name: string): Option<string> {
    if pairs == [] then None
    else if LastPair(pairs[1..], name).Some? then LastPair(pairs[1..], name)
    else if WellFormed(pairs[0]) && NameOf(pairs[0]) == Some(name) then Some(pairs[0])
    else None
  }

  lemma {:induction false} NamedAfterUnset(env: seq<string>, name: string, entry: string, other: string)
    requires '=' !in name && NameOf(entry) == Some(name)
    ensures Named(Unset(env, name) + [entry], other) == if other == name then [entry] else Named(env, other)
  {
    if env == [] {
      assert Unset(env, name) + [entry] == [entry] && [entry][1..] == [];
    } else {
      PrefixIsName(env[0], name);
      NamedAfterUnset(env[1..], name, entry, other);
      if !HasName(env[0], name) { TailOfConcat(Unset(env, name), [entry]); }
    }
  }

  /** A supplied name is there exactly once, with its last pair; every other name is as it was. */
  lemma {:induction false} EachNameOnce(env: seq<string>, pairs: seq<string>, name: string)
    ensures Named(Overlay(env, pairs), name) == if LastPair(pairs, name).Some? then [LastPair(pairs, name).value] else Named(env, name)
    decreases |pairs|
  {
    if pairs != [] {
      if WellFormed(pairs[0]) {
        var first := NameOf(pairs[0]).value;
        NamesHaveNoEquals(pairs[0]);
        EachNameOnce(Unset(env, first) + [pairs[0]], pairs[1..], name);
        NamedAfterUnset(env, first, pairs[0], name);
      } else {
        EachNameOnce(env, pairs[1..], name);
      }
    }
  }

  // ------------------------------------------------------------- in place

  lemma {:induction false} UnsetStep(env: seq<string>, i: nat, name: string, front: seq<string>)
    requires i < |env|
    ensures front + Unset(env[i..], name) ==
      if HasName(env[i], name) then front + Unset(env[i + 1..], name) else (front + [env[i]]) + Unset(env[i + 1..], name)
  {
    assert env[i..][0] == env[i] && env[i..][1..] == env[i + 1..];
    Assoc(front, [env[i]], Unset(env[i + 1..], name));
  }

  /** The in-place filter: what is kept is copied down over what was read, in the same buffer. */
  method DropName(buffer: array<string>, len: nat, name: string) returns (kept: nat)
    requires len <= buffer.Length
    modifies buffer
    ensures kept <= len && buffer[..kept] == Unset(old(buffer[..len]), name)
  {
    kept := 0;
    ghost var was := buffer[..len];
    for i := 0 to len
      invariant kept <= i
      invariant forall j :: i <= j < len ==> buffer[j] == was[j]
      invariant Unset(was, name) == buffer[..kept] + Unset(was[i..], name)
    {
      ghost var front := buffer[..kept];
      UnsetStep(was, i, name, front);
      var entry := buffer[i];
      if !HasName(entry, name) {
        buffer[kept] := entry;
        kept := kept + 1;
        assert buffer[..kept] == front + [was[i]];
      }
    }
    assert was[len..] == [];
  }

  /** A Go slice of strings: the first len elements of a buffer. */
  class EnvList {
    var buffer: array<string>
    var len: nat

    ghost predicate Valid()
      reads this
    {
      len <= buffer.Length
    }

    ghost function Entries(): seq<string>
      reads this, buffer
      requires Valid()
    {
      buffer[..len]
    }

    constructor (entries: seq<string>)
      ensures Valid() && fresh(buffer) && Entries() == entries
    {
      buffer := new string[|entries|](i requires 0 <= i < |entries| => entries[i]);
      len := |entries|;
      new;
      assert buffer[..] == entries;
    }

    method UnsetEnv(name: string)
      requires Valid()
      modifies this`len, buffer
      ensures Valid() && Entries() == Unset(old(Entries()), name)
    {
      len := DropName(buffer, len, name);
    }

    /** Appending reuses the buffer while there is room. */
    method Append(entry: string)
      requires Valid()
      modifies this, buffer
      ensures Valid() && (buffer == old(buffer) || fresh(buffer)) && Entries() == old(Entries()) + [entry]
    {
      if len == buffer.Length {
        var larger := new string[2 * len + 1](i => "");
        for i := 0 to len
          modifies larger
          invariant forall j :: 0 <= j < i ==> larger[j] == buffer[j]
        {
          larger[i] := buffer[i];
        }
        assert larger[..len] == buffer[..len];
        buffer := larger;
      }
      buffer[len] := entry;
      len := len + 1;
      assert buffer[..len] == buffer[..len - 1] + [entry];
    }

    method ApplyExtraEnv(pairs: seq<string>)
      requires Valid()
      modifies this, buffer
      ensures Valid() && Entries() == Overlay(old(Entries()), pairs)
    {
      for i := 0 to |pairs|
        invariant Valid() && (buffer == old(buffer) || fresh(buffer))
        invariant Overlay(old(Entries()), pairs) == Overlay(Entries(), pairs[i..])
      {
        assert pairs[i..][0] == pairs[i] && pairs[i..][1..] == pairs[i + 1..];
        if WellFormed(pairs[i]) {
          UnsetEnv(NameOf(pairs[i]).value);
          Append(pairs[i]);
        }
      }
      assert pairs[|pairs|..] == [];
    }
  }
}
