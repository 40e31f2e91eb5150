/** The string operations the program uses: trimming, joining and shortening. A char is one code point. */
module Text {
  import opened Seqs

  /** The code points Go's unicode.IsSpace accepts. */
  predicate IsSpace(c: char) {
    || c in {' ', '\t', '\n', '\r', '\U{0B}', '\U{0C}', '\U{85}', '\U{A0}'}
    || c in {'\U{1680}', '\U{2028}', '\U{2029}', '\U{202F}', '\U{205F}', '\U{3000}'}
    || '\U{2000}' <= c <= '\U{200A}'
  }

  function TrimLeft(s: string): (r: string)
    ensures |r| <= |s|
    ensures r == "" || !IsSpace(r[0])
  {
    if s != "" && IsSpace(s[0]) then TrimLeft(s[1..]) else s
  }

  function TrimRight(s: string): (r: string)
    ensures |r| <= |s| && r == s[..|r|]
    ensures r == "" || !IsSpace(r[|r| - 1])
  {
    if s != "" && IsSpace(s[|s| - 1]) then TrimRight(s[..|s| - 1]) else s
  }

  function Trim(s: string): (r: string)
    ensures |r| <= |s|
    ensures r == "" || (!IsSpace(r[0]) && !IsSpace(r[|r| - 1]))
  {
    TrimRight(TrimLeft(s))
  }

  predicate Blank(s: string) {
    Trim(s) == ""
  }

  /** Text with no space at either end is what trimming leaves. */
  predicate Trimmed(s: string) {
    s == "" || (!IsSpace(s[0]) && !IsSpace(s[|s| - 1]))
  }

  lemma TrimmedIsFixed(s: string)
    requires Trimmed(s)
    ensures Trim(s) == s
  {
  }

  lemma {:induction false} TrimLeftDropsSpaces(s: string)
    ensures TrimLeft(s) == s[|s| - |TrimLeft(s)|..]
    ensures forall i :: 0 <= i < |s| - |TrimLeft(s)| ==> IsSpace(s[i])
  {
    if s != "" && IsSpace(s[0]) { TrimLeftDropsSpaces(s[1..]); }
  }

  lemma {:induction false} TrimRightDropsSpaces(s: string)
    ensures forall i :: |TrimRight(s)| <= i < |s| ==> IsSpace(s[i])
  {
    if s != "" && IsSpace(s[|s| - 1]) { TrimRightDropsSpaces(s[..|s| - 1]); }
  }

  /** Trimming takes away spaces only: what stays is a stretch of the text with nothing but spaces around it. */
  lemma {:induction false} TrimDropsSpaces(s: string)
    ensures var start := |s| - |TrimLeft(s)|;
      && start + |Trim(s)| <= |s| && Trim(s) == s[start..start + |Trim(s)|]
      && forall i :: 0 <= i < |s| && !(start <= i < start + |Trim(s)|) ==> IsSpace(s[i])
  {
    var start, left := |s| - |TrimLeft(s)|, TrimLeft(s);
    TrimLeftDropsSpaces(s);
    TrimRightDropsSpaces(left);
    assert Trim(s) == left[..|Trim(s)|] == s[start..][..|Trim(s)|] == s[start..start + |Trim(s)|];
    forall i | 0 <= i < |s| && !(start <= i < start + |Trim(s)|) ensures IsSpace(s[i]) {
      if i >= start { assert s[i] == left[i - start]; }
    }
  }

  /** How many spaces a text starts with. */
  function Lead(s: string): (n: nat)
    ensures n <= |s| && (n < |s| ==> !IsSpace(s[n]))
  {
    if s == "" || !IsSpace(s[0]) then 0 else 1 + Lead(s[1..])
  }

  lemma {:induction false} TrimLeftDropsLead(s: string)
    ensures |TrimLeft(s)| == |s| - Lead(s)
  {
    if s != "" && IsSpace(s[0]) { TrimLeftDropsLead(s[1..]); }
  }

  /** A text is blank exactly when it is all spaces. */
  lemma {:induction false} BlankIsAllLead(s: string)
    ensures Blank(s) <==> Lead(s) == |s|
  {
    TrimLeftDropsLead(s);
    TrimRightDropsSpaces(TrimLeft(s));
  }

  lemma {:induction false} LeadOfConcat(a: string, b: string)
    ensures Lead(a + b) == if Lead(a) == |a| then |a| + Lead(b) else Lead(a)
  {
    if a == "" {
      assert a + b == b;
    } else {
      assert (a + b)[1..] == a[1..] + b;
      if IsSpace(a[0]) { LeadOfConcat(a[1..], b); }
    }
  }

  function Join(lines: seq<string>, sep: string): string {
    if lines == [] then ""
    else if |lines| == 1 then lines[0]
    else lines[0] + sep + Join(lines[1..], sep)
  }

  function Concat(parts: seq<string>): string {
    if parts == [] then "" else parts[0] + Concat(parts[1..])
  }

  lemma {:induction false} ConcatAppend(a: seq<string>, b: seq<string>)
    ensures Concat(a + b) == Concat(a) + Concat(b)
  {
    if a == [] {
      assert a + b == b;
    } else {
      ConcatAppend(a[1..], b);
      TailOfConcat(a, b);
      Assoc(a[0], Concat(a[1..]), Concat(b));
    }
  }

  const ELLIPSIS: string := "\U{2026}"

  /** Trims, and cuts what is longer than the limit to end in an ellipsis. */
  function ShortText(value: string, limit: nat): (r: string)
    requires limit > 0
    ensures |r| <= limit && Trimmed(r)
  {
    var v := Trim(value);
    if |v| > limit then Trim(v[..limit - 1]) + ELLIPSIS else v
  }

  /** A shortened text is the trimmed text if that is short enough, or else its beginning, up to a space or the limit, and an ellipsis. */
  lemma ShortTextCuts(value: string, limit: nat)
    requires limit > 0
    ensures var v, r := Trim(value), ShortText(value, limit);
      && (|v| <= limit ==> r == v)
      && (|v| > limit ==>
            && r != "" && r[|r| - 1] == '\U{2026}' && r[..|r| - 1] <= v
            && forall i :: |r| - 1 <= i < limit - 1 ==> IsSpace(v[i]))
  {
    var v := Trim(value);
    if |v| > limit {
      var cut := v[..limit - 1];
      TrimDropsSpaces(cut);
      if cut != "" { assert !IsSpace(cut[0]) && TrimLeft(cut) == cut; }
      var r := ShortText(value, limit);
      assert r[..|r| - 1] == Trim(cut) == cut[..|Trim(cut)|] == v[..|Trim(cut)|];
      assert forall i :: |Trim(cut)| <= i < limit - 1 ==> v[i] == cut[i];
    }
  }
}
