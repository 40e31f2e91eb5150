/** Project ids: a slug of the name, made unique against the ledger by the least free number. */
module ProjectIds {
  import opened Seqs
  import opened Text
  import Decimal

  predicate Plain(c: char) {
    'a' <= c <= 'z' || '0' <= c <= '9'
  }

  function Lower(s: string, lower: char -> char): string {
    if s == "" then "" else [lower(s[0])] + Lower(s[1..], lower)
  }

  /** Every run of other characters becomes one dash; dash tells whether the text before ended in one. */
  function Dashed(s: string, dash: bool): string {
    if s == "" then ""
    else if Plain(s[0]) then [s[0]] + Dashed(s[1..], false)
    else if dash then Dashed(s[1..], true)
    else "-" + Dashed(s[1..], true)
  }

  function DropDashes(s: string): string {
    if s != "" && s[0] == '-' then DropDashes(s[1..]) else s
  }

  function DropDashesEnd(s: string): string {
    if s != "" && s[|s| - 1] == '-' then DropDashesEnd(s[..|s| - 1]) else s
  }

  /** The slug of a name; lower is the case mapping of single characters. */
  function Slug(name: string, lower: char -> char): string {
    var id := DropDashesEnd(DropDashes(Dashed(Lower(Trim(name), lower), false)));
    if id == "" then "project" else id
  }

  /** Letters, digits and single dashes between them. */
  predicate Safe(id: string) {
    && id != "" && id[0] != '-' && id[|id| - 1] != '-'
    && (forall i :: 0 <= i < |id| ==> Plain(id[i]) || id[i] == '-')
    && (forall i :: 0 <= i < |id| - 1 ==> id[i] != '-' || id[i + 1] != '-')
  }

  /** Single dashes, and only Plain characters besides. */
  predicate Spaced(s: string) {
    && (forall i :: 0 <= i < |s| ==> Plain(s[i]) || s[i] == '-')
    && (forall i :: 0 <= i < |s| - 1 ==> s[i] != '-' || s[i + 1] != '-')
  }

  lemma {:induction false} DashedIsSpaced(s: string, dash: bool)
    ensures Spaced(Dashed(s, dash)) && (dash && Dashed(s, dash) != "" ==> Dashed(s, dash)[0] != '-')
  {
    if s != "" { DashedIsSpaced(s[1..], !Plain(s[0])); }
  }

  lemma {:induction false} DropsStaySpaced(s: string)
    requires Spaced(s)
    ensures Spaced(DropDashes(s)) && (DropDashes(s) != "" ==> DropDashes(s)[0] != '-')
  {
    if s != "" && s[0] == '-' { DropsStaySpaced(s[1..]); }
  }

  lemma {:induction false} EndDropsStaySpaced(s: string)
    requires Spaced(s) && (s != "" ==> s[0] != '-')
    ensures var t := DropDashesEnd(s);
      Spaced(t) && (t != "" ==> t[0] != '-' && t[|t| - 1] != '-')
  {
    if s != "" && s[|s| - 1] == '-' { EndDropsStaySpaced(s[..|s| - 1]); }
  }

  /** Whatever the name, its slug is safe. */
  lemma SlugIsSafe(name: string, lower: char -> char)
    ensures Safe(Slug(name, lower))
  {
    var dashed := Dashed(Lower(Trim(name), lower), false);
    DashedIsSpaced(Lower(Trim(name), lower), false);
    DropsStaySpaced(dashed);
    EndDropsStaySpaced(DropDashes(dashed));
  }

  /** The letters and digits of a text. */
  function Letters(s: string): string {
    if s == "" then "" else if Plain(s[0]) then [s[0]] + Letters(s[1..]) else Letters(s[1..])
  }

  lemma {:induction false} DashedKeepsLetters(s: string, dash: bool)
    ensures Letters(Dashed(s, dash)) == Letters(s)
  {
    if s != "" {
      DashedKeepsLetters(s[1..], !Plain(s[0]));
      assert ("-" + Dashed(s[1..], true))[1..] == Dashed(s[1..], true);
    }
  }

  lemma {:induction false} DropsKeepLetters(s: string)
    ensures Letters(DropDashes(s)) == Letters(s)
  {
    if s != "" && s[0] == '-' { DropsKeepLetters(s[1..]); }
  }

  lemma {:induction false} LettersPush(s: string, c: char)
    ensures Letters(s + [c]) == if Plain(c) then Letters(s) + [c] else Letters(s)
  {
    if s == "" {
      assert s + [c] == [c];
    } else {
      TailOfConcat(s, [c]);
      LettersPush(s[1..], c);
    }
  }

  lemma {:induction false} EndDropsKeepLetters(s: string)
    ensures Letters(DropDashesEnd(s)) == Letters(s)
  {
    if s != "" && s[|s| - 1] == '-' {
      EndDropsKeepLetters(s[..|s| - 1]);
      LettersPush(s[..|s| - 1], '-');
      assert s == s[..|s| - 1] + ['-'];
    }
  }

  /** A slug keeps every letter and digit of the lower-cased name, in order; a name without any becomes "project". */
  lemma SlugKeepsLetters(name: string, lower: char -> char)
    ensures var letters := Letters(Lower(Trim(name), lower));
      if letters == "" then Slug(name, lower) == "project" else Letters(Slug(name, lower)) == letters
  {
    var text := Lower(Trim(name), lower);
    var dashed := Dashed(text, false);
    DashedKeepsLetters(text, false);
    DropsKeepLetters(dashed);
    EndDropsKeepLetters(DropDashes(dashed));
    var id := DropDashesEnd(DropDashes(dashed));
    DashedIsSpaced(text, false);
    DropsStaySpaced(dashed);
    EndDropsStaySpaced(DropDashes(dashed));
    if id != "" { assert Plain(id[0]); }
  }

  /** The words of a text, after a word already begun: its longest stretches of letters and digits. */
  function Words(s: string, word: string): (r: seq<string>)
    ensures forall i :: 0 <= i < |r| ==> r[i] != ""
  {
    var ended := if word == "" then [] else [word];
    if s == "" then ended
    else if Plain(s[0]) then Words(s[1..], word + [s[0]])
    else ended + Words(s[1..], "")
  }

  lemma {:induction false} EndDropsOfConcat(a: string, b: string)
    ensures DropDashesEnd(a + b) == if DropDashesEnd(b) == "" then DropDashesEnd(a) else a + DropDashesEnd(b)
  {
    if b == "" {
      assert a + b == a;
    } else if b[|b| - 1] == '-' {
      assert (a + b)[..|a + b| - 1] == a + b[..|b| - 1];
      EndDropsOfConcat(a, b[..|b| - 1]);
    }
  }

  predicate IsWord(word: string) {
    word == "" || Plain(word[|word| - 1])
  }

  lemma {:induction false} DashedJoinsWords(s: string, word: string)
    requires IsWord(word)
    ensures DropDashesEnd(word + Dashed(s, word == "")) == Join(Words(s, word), "-")
    decreases |s|
  {
    var tail := s[if s == "" then 0 else 1..];
    if s == "" {
      assert word + "" == word;
    } else if Plain(s[0]) {
      DashedJoinsWords(tail, word + [s[0]]);
      Assoc(word, [s[0]], Dashed(tail, false));
    } else {
      DashedJoinsWords(tail, "");
      var rest := Words(tail, "");
      assert "" + Dashed(tail, true) == Dashed(tail, true);
      assert rest != [] ==> ([word] + rest)[1..] == rest;
      if word != "" {
        assert (word + "-")[..|word|] == word;
        Assoc(word, "-", Dashed(tail, true));
        EndDropsOfConcat(word + "-", Dashed(tail, true));
      } else {
        assert word + Dashed(s, true) == Dashed(tail, true) && [] + rest == rest;
      }
    }
  }

  /** The slug of a name is the words of its lower-cased text, joined by dashes. */
  lemma SlugIsWords(name: string, lower: char -> char)
    ensures var words := Words(Lower(Trim(name), lower), "");
      Slug(name, lower) == if words == [] then "project" else Join(words, "-")
  {
    var text := Lower(Trim(name), lower);
    DashedIsSpaced(text[if text == "" then 0 else 1..], true);
    assert DropDashes(Dashed(text, false)) == Dashed(text, true);
    DashedJoinsWords(text, "");
    assert "" + Dashed(text, true) == Dashed(text, true);
  }

  lemma {:induction false} LowerIsIdentity(s: string, lower: char -> char)
    requires forall i :: 0 <= i < |s| ==> lower(s[i]) == s[i]
    ensures Lower(s, lower) == s
  {
    if s != "" { LowerIsIdentity(s[1..], lower); }
  }

  lemma {:induction false} DashedIsIdentity(s: string, dash: bool)
    requires Spaced(s) && (dash && s != "" ==> s[0] != '-')
    ensures Dashed(s, dash) == s
  {
    if s != "" {
      if s[0] == '-' && |s| > 1 { assert s[0 + 1] != '-'; }
      DashedIsIdentity(s[1..], !Plain(s[0]));
      assert s == [s[0]] + s[1..];
    }
  }

  /** A safe id is its own slug, so making a slug twice is making it once. */
  lemma SafeIsItsOwnSlug(id: string, lower: char -> char)
    requires Safe(id) && forall i :: 0 <= i < |id| ==> lower(id[i]) == id[i]
    ensures Slug(id, lower) == id
  {
    TrimmedIsFixed(id);
    LowerIsIdentity(id, lower);
    DashedIsIdentity(id, false);
  }

  function Candidate(id: string, n: nat): string {
    id + "-" + Decimal.Render(n)
  }

  lemma CandidatesDiffer(id: string, m: nat, n: nat)
    requires Candidate(id, m) == Candidate(id, n)
    ensures m == n
  {
    var k := |id| + 1;
    assert Candidate(id, m)[k..] == Decimal.Render(m) && Candidate(id, n)[k..] == Decimal.Render(n);
    Decimal.RenderIsInjective(m, n);
  }

  lemma {:induction false} SubsetIsSmaller(a: set<string>, b: set<string>)
    requires a <= b
    ensures |a| <= |b|
  {
    if a != {} {
      var x :| x in a;
      SubsetIsSmaller(a - {x}, b - {x});
    }
  }

  /** The numbered ids from 2 up to but not including n. */
  function Numbered(id: string, n: nat): set<string> {
    if n <= 2 then {} else Numbered(id, n - 1) + {Candidate(id, n - 1)}
  }

  lemma {:induction false} LaterIsNew(id: string, n: nat, m: nat)
    requires m >= n
    ensures Candidate(id, m) !in Numbered(id, n)
  {
    if n > 2 {
      LaterIsNew(id, n - 1, m);
      if Candidate(id, m) == Candidate(id, n - 1) { CandidatesDiffer(id, m, n - 1); }
    }
  }

  lemma {:induction false} NumberedAreMany(id: string, n: nat, taken: set<string>)
    requires n >= 2 && forall j: nat :: 2 <= j < n ==> Candidate(id, j) in taken
    ensures |Numbered(id, n)| == n - 2 && id !in Numbered(id, n) && Numbered(id, n) <= taken
    decreases n
  {
    if n > 2 {
      NumberedAreMany(id, n - 1, taken);
      LaterIsNew(id, n - 1, n - 1);
      assert |Candidate(id, n - 1)| > |id|;
    }
  }

  /** Pigeonhole: if an id and its numbers below n are all taken, n is at most one more than the ids taken. */
  lemma TakenBoundsNumber(id: string, n: nat, taken: set<string>)
    requires n >= 2 && id in taken && forall j: nat :: 2 <= j < n ==> Candidate(id, j) in taken
    ensures n <= |taken| + 1
  {
    NumberedAreMany(id, n, taken);
    SubsetIsSmaller(Numbered(id, n) + {id}, taken);
  }

  /** The numbers below n are all taken and n is free. */
  ghost predicate LeastFree(id: string, n: nat, taken: set<string>) {
    n >= 2 && Candidate(id, n) !in taken && forall j: nat :: 2 <= j < n ==> Candidate(id, j) in taken
  }

  /**
   * UniqueProjectID. The search is unbounded in the source; it ends because the
   * ledger is finite and no two numbers give the same id. An unreadable ledger
   * (None) leaves the slug as it is.
   */
  method UniqueProjectId(name: string, lower: char -> char, ledger: Option<seq<string>>) returns (id: string)
    ensures ledger.None? ==> id == Slug(name, lower)
    ensures ledger.Some? ==> id !in ledger.value
    ensures ledger.Some? ==>
      var taken := set x | x in ledger.value;
      if Slug(name, lower) !in taken then id == Slug(name, lower)
      else exists n: nat :: 
        && 2 <= n <= |taken| + 1 && LeastFree(Slug(name, lower), n, taken)
        && id == Candidate(Slug(name, lower), n) == Slug(name, lower) + "-" + Decimal.Render(n)
  {
    var slug := Slug(name, lower);
    if ledger.None? { return slug; }
    var taken: map<string, bool> := map[];
    for i := 0 to |ledger.value|
      invariant taken.Keys == set x | x in ledger.value[..i]
    {
      assert ledger.value[..i + 1] == ledger.value[..i] + [ledger.value[i]];
      taken := taken[ledger.value[i] := true];
    }
    assert ledger.value[..|ledger.value|] == ledger.value;
    if slug !in taken { return slug; }
    var i := 2;
    while true
      invariant i >= 2 && forall j: nat :: 2 <= j < i ==> Candidate(slug, j) in taken.Keys
      decreases |taken.Keys| + 2 - i
    {
      TakenBoundsNumber(slug, i, taken.Keys);
      var candidate := Candidate(slug, i);
      if candidate !in taken {
        assert LeastFree(slug, i, taken.Keys);
        return candidate;
      }
      i := i + 1;
    }
  }
}
