/**
 * Which paths a plan may have: a path is cleaned, made relative to the plans
 * directory, and refused when that leads out of it. Paths are Unix paths.
 */
module PlanPaths {
  import opened Seqs
  import opened Text

  /** The segments between slashes; "a//b/" has empty ones. */
  function Split(s: string): (r: seq<string>)
    ensures r != []
    ensures forall i :: 0 <= i < |r| ==> '/' !in r[i]
  {
    if s == "" then [""]
    else
      var rest := Split(s[1..]);
      if s[0] == '/' then [""] + rest else [[s[0]] + rest[0]] + rest[1..]
  }

  /** A segment that names an entry. */
  predicate Plain(segment: string) {
    segment != "" && segment != "." && segment != ".." && '/' !in segment
  }

  predicate AllPlain(segments: seq<string>) {
    forall i :: 0 <= i < |segments| ==> Plain(segments[i])
  }

  /** filepath.Clean of an absolute path: ".." takes back the segment before it, and stops at the root. */
  function Clean(stack: seq<string>, segments: seq<string>): (r: seq<string>)
    requires AllPlain(stack) && forall i :: 0 <= i < |segments| ==> '/' !in segments[i]
    ensures AllPlain(r)
    decreases |segments|
  {
    if segments == [] then stack
    else if segments[0] == "" || segments[0] == "." then Clean(stack, segments[1..])
    else if segments[0] == ".." then Clean(if stack == [] then [] else stack[..|stack| - 1], segments[1..])
    else Clean(stack + [segments[0]], segments[1..])
  }

  /** filepath.Abs: the segments of a path read from a working directory. */
  function Abs(cwd: seq<string>, path: string): (r: seq<string>)
    requires AllPlain(cwd)
    ensures AllPlain(r)
  {
    Clean(if path != "" && path[0] == '/' then [] else cwd, Split(path))
  }

  function CommonLength(a: seq<string>, b: seq<string>): (n: nat)
    ensures n <= |a| && n <= |b| && a[..n] == b[..n]
    ensures n < |a| && n < |b| ==> a[n] != b[n]
  {
    if a == [] || b == [] || a[0] != b[0] then 0
    else
      var n := CommonLength(a[1..], b[1..]) + 1;
      assert a[..n] == [a[0]] + a[1..][..n - 1] && b[..n] == [b[0]] + b[1..][..n - 1];
      n
  }

  /** filepath.Rel: up from the base to the common part, then down to the target; "." when they are the same. */
  function Rel(base: seq<string>, target: seq<string>): seq<string> {
    var n := CommonLength(base, target);
    var ups := seq(|base| - n, _ => "..");
    if base == target then ["."] else ups + target[n..]
  }

  function Slashed(segments: seq<string>): string {
    Join(segments, "/")
  }

  datatype PathError = PathRequired | OutsidePlans

  /** validatePlanPath: the test reads the relative path as text. */
  function ValidatePlanPath(cwd: seq<string>, planDir: string, raw: string): Result<seq<string>, PathError>
    requires AllPlain(cwd)
  {
    var path := Trim(raw);
    if path == "" then Err(PathRequired)
    else
      var target := Abs(cwd, path);
      var rel := Slashed(Rel(Abs(cwd, planDir), target));
      if rel == "." || rel == ".." || "../" <= rel then Err(OutsidePlans) else Ok(target)
  }

  /** A joined path starts with its first segment, followed by a slash or nothing. */
  lemma FirstSegment(segments: seq<string>)
    requires segments != [] && '/' !in segments[0]
    ensures (Slashed(segments) == ".." || "../" <= Slashed(segments)) <==> segments[0] == ".."
    ensures Slashed(segments) == "." <==> segments == ["."]
  {
    var s := Slashed(segments);
    if |segments| > 1 {
      var rest := Slashed(segments[1..]);
      assert s == segments[0] + "/" + rest;
      assert s[|segments[0]|] == '/';
      if "../" <= s {
        assert s[0] == '.' && s[1] == '.' && s[2] == '/';
        assert forall i :: 0 <= i < |segments[0]| ==> segments[0][i] == s[i] != '/';
        assert |segments[0]| <= 2;
        assert segments[0] == "..";
      }
      if segments[0] == ".." { assert "../" <= s; }
    } else {
      assert s == segments[0] && "../"[2] == '/';
    }
  }

  /** One path lies properly inside another. */
  predicate Inside(dir: seq<string>, path: seq<string>) {
    dir < path
  }

  /**
   * A path is accepted exactly when, cleaned, it lies properly inside the cleaned
   * plans directory, and what is returned is that cleaned path.
   */
  lemma AcceptedExactlyInside(cwd: seq<string>, planDir: string, raw: string)
    requires AllPlain(cwd)
    ensures ValidatePlanPath(cwd, planDir, raw).Ok? <==> Trim(raw) != "" && Inside(Abs(cwd, planDir), Abs(cwd, Trim(raw)))
    ensures ValidatePlanPath(cwd, planDir, raw).Ok? ==>
      ValidatePlanPath(cwd, planDir, raw).value == Abs(cwd, Trim(raw)) != []
  {
    var base, target := Abs(cwd, planDir), Abs(cwd, Trim(raw));
    var n := CommonLength(base, target);
    var rel := Rel(base, target);
    if base == target {
      FirstSegment(rel);
    } else if n < |base| {
      assert rel[0] == "..";
      FirstSegment(rel);
    } else {
      assert base == target[..n] && n < |target|;
      assert rel == target[n..] && rel[0] == target[n] && Plain(target[n]);
      FirstSegment(rel);
    }
  }

  // ------------------------------------------------------- writing paths out

  /** The text of a cleaned path. */
  function PathText(segments: seq<string>): string {
    "/" + Slashed(segments)
  }

  /** What the first character of a text adds to the segments of the rest. */
  function Grow(c: char, rest: seq<string>): seq<string>
    requires rest != []
  {
    if c == '/' then [""] + rest else [[c] + rest[0]] + rest[1..]
  }

  lemma GrowConcat(c: char, rest: seq<string>, more: seq<string>)
    requires rest != []
    ensures Grow(c, rest + more) == Grow(c, rest) + more
  {
    TailOfConcat(rest, more);
    if c == '/' { Assoc([""], rest, more); } else { Assoc([[c] + rest[0]], rest[1..], more); }
  }

  lemma {:induction false} SplitConcat(a: string, b: string)
    ensures Split(a + ("/" + b)) == Split(a) + Split(b)
  {
    var tail := "/" + b;
    if a == "" {
      assert a + tail == tail && tail[1..] == b;
    } else {
      SplitConcat(a[1..], b);
      TailOfConcat(a, tail);
      GrowConcat(a[0], Split(a[1..]), Split(b));
      assert Split(a + tail) == Grow(a[0], Split(a[1..] + tail));
    }
  }

  lemma {:induction false} SplitOne(name: string)
    requires '/' !in name
    ensures Split(name) == [name]
  {
    if name != "" {
      SplitOne(name[1..]);
      assert [name[0]] + name[1..] == name;
    }
  }

  lemma {:induction false} SplitSlashed(segments: seq<string>)
    requires AllPlain(segments) && segments != []
    ensures Split(Slashed(segments)) == segments
  {
    SplitOne(segments[0]);
    if |segments| > 1 {
      SplitSlashed(segments[1..]);
      SplitConcat(segments[0], Slashed(segments[1..]));
      Assoc(segments[0], "/", Slashed(segments[1..]));
    }
  }

  lemma {:induction false} CleanPlain(stack: seq<string>, segments: seq<string>)
    requires AllPlain(stack) && AllPlain(segments)
    ensures Clean(stack, segments) == stack + segments
    decreases |segments|
  {
    if segments == [] {
      assert stack + [] == stack;
    } else {
      CleanPlain(stack + [segments[0]], segments[1..]);
      Assoc(stack, [segments[0]], segments[1..]);
    }
  }

  lemma {:induction false} CleanConcat(stack: seq<string>, a: seq<string>, b: seq<string>)
    requires AllPlain(stack) && forall i :: 0 <= i < |a + b| ==> '/' !in (a + b)[i]
    requires (forall i :: 0 <= i < |a| ==> '/' !in a[i]) && (forall i :: 0 <= i < |b| ==> '/' !in b[i])
    ensures Clean(stack, a + b) == Clean(Clean(stack, a), b)
    decreases |a|
  {
    if a == [] {
      assert a + b == b;
    } else {
      TailOfConcat(a, b);
      var next := if a[0] == "" || a[0] == "." then stack
                  else if a[0] == ".." then if stack == [] then [] else stack[..|stack| - 1]
                  else stack + [a[0]];
      CleanConcat(next, a[1..], b);
    }
  }

  /** Reading a cleaned path's text gives the path back, from any working directory. */
  lemma ReadingBack(cwd: seq<string>, segments: seq<string>)
    requires AllPlain(cwd) && AllPlain(segments) && segments != []
    ensures Abs(cwd, PathText(segments)) == segments
  {
    SplitSlashed(segments);
    assert PathText(segments)[1..] == Slashed(segments);
    CleanPlain([], segments);
    assert ([""] + segments)[1..] == segments;
  }

  /** Cleaning one segment more: "." and nothing lead nowhere, ".." one step up and not above the root, a name one down. */
  lemma {:induction false} CleanOne(stack: seq<string>, segment: string)
    requires AllPlain(stack) && '/' !in segment
    ensures Clean(stack, [segment]) ==
      if segment == "" || segment == "." then stack
      else if segment == ".." then if stack == [] then [] else stack[..|stack| - 1]
      else stack + [segment]
  {
    assert [segment][1..] == [];
  }

  /**
   * What every path means, segment by segment: where the path before its last
   * slash leads, and one segment on from there. A path without a slash starts
   * in the working directory, and one that begins with a slash at the root.
   */
  lemma PathSteps(cwd: seq<string>, dir: string, segment: string)
    requires AllPlain(cwd) && '/' !in segment
    ensures var start := if dir == "" then [] else Abs(cwd, dir);
      Abs(cwd, dir + "/" + segment) ==
        if segment == "" || segment == "." then start
        else if segment == ".." then if start == [] then [] else start[..|start| - 1]
        else start + [segment]
    ensures Abs(cwd, segment) ==
      if segment == "" || segment == "." then cwd
      else if segment == ".." then if cwd == [] then [] else cwd[..|cwd| - 1]
      else cwd + [segment]
  {
    SplitOne(segment);
    CleanOne(cwd, segment);
    SplitConcat(dir, segment);
    Assoc(dir, "/", segment);
    if dir == "" {
      assert [""] + [segment] == ["", segment] && ["", segment][1..] == [segment];
      assert ("" + "/" + segment)[0] == '/';
      CleanOne([], segment);
    } else {
      assert (dir + "/" + segment)[0] == dir[0];
      var start := if dir[0] == '/' then [] else cwd;
      CleanConcat(start, Split(dir), [segment]);
      CleanOne(Clean(start, Split(dir)), segment);
    }
  }

  /** A name joined to a directory is one step below it. */
  lemma OneBelow(cwd: seq<string>, dir: string, name: string)
    requires AllPlain(cwd) && dir != "" && Plain(name)
    ensures Abs(cwd, dir + "/" + name) == Abs(cwd, dir) + [name]
  {
    PathSteps(cwd, dir, name);
  }
}
