/** A goal's metrics, and the deltas a progress entry logs when it moves them. */
module GoalMetrics {
  import opened Seqs

  datatype Metric = Metric(name: string, target: real, current: real, units: string)

  datatype Move = Move(name: string, current: real)

  datatype Delta = Delta(name: string, before: real, after: real)

  /** The first metric with a name. */
  function Position(metrics: seq<Metric>, name: string): (r: Option<nat>)
    ensures r.Some? ==> r.value < |metrics| && metrics[r.value].name == name
    ensures r.Some? ==> forall i :: 0 <= i < r.value ==> metrics[i].name != name
    ensures r.None? ==> forall i :: 0 <= i < |metrics| ==> metrics[i].name != name
  {
    if metrics == [] then None
    else if metrics[0].name == name then Some(0)
    else
      var rest := Position(metrics[1..], name);
      assert forall i :: 1 <= i < |metrics| ==> metrics[i] == metrics[1..][i - 1];
      if rest.Some? then Some(rest.value + 1) else None
  }

  function SetCurrent(metrics: seq<Metric>, i: nat, value: real): seq<Metric>
    requires i < |metrics|
  {
    metrics[i := metrics[i].(current := value)]
  }

  datatype Moved = Moved(metrics: seq<Metric>, deltas: seq<Delta>)

  /** The moves in order; an unknown name refuses them all. */
  function Apply(metrics: seq<Metric>, moves: seq<Move>): Result<Moved, string>
    decreases |moves|
  {
    if moves == [] then Ok(Moved(metrics, []))
    else
      var at := Position(metrics, moves[0].name);
      if at.None? then Err(moves[0].name)
      else
        var rest := Apply(SetCurrent(metrics, at.value, moves[0].current), moves[1..]);
        if rest.Err? then rest
        else Ok(Moved(rest.value.metrics, [Delta(moves[0].name, metrics[at.value].current, moves[0].current)] + rest.value.deltas))
  }

  /** Reading the logged deltas forward; None when one does not fit the list it is read on. */
  function Forward(metrics: seq<Metric>, deltas: seq<Delta>): Option<seq<Metric>>
    decreases |deltas|
  {
    if deltas == [] then Some(metrics)
    else
      var at := Position(metrics, deltas[0].name);
      if at.None? || metrics[at.value].current != deltas[0].before then None
      else Forward(SetCurrent(metrics, at.value, deltas[0].after), deltas[1..])
  }

  /** Reading them backward, newest first. */
  function Backward(metrics: seq<Metric>, deltas: seq<Delta>): Option<seq<Metric>>
    decreases |deltas|
  {
    if deltas == [] then Some(metrics)
    else
      var later := Backward(metrics, deltas[1..]);
      if later.None? then None
      else
        var at := Position(later.value, deltas[0].name);
        if at.None? || later.value[at.value].current != deltas[0].after then None
        else Some(SetCurrent(later.value, at.value, deltas[0].before))
  }

  function Names(metrics: seq<Metric>): (r: seq<string>)
    ensures |r| == |metrics| && forall i :: 0 <= i < |r| ==> r[i] == metrics[i].name
  {
    seq(|metrics|, i requires 0 <= i < |metrics| => metrics[i].name)
  }

  lemma {:induction false} PositionByNames(a: seq<Metric>, b: seq<Metric>, name: string)
    requires Names(a) == Names(b)
    ensures Position(a, name) == Position(b, name)
  {
    var i, j := Position(a, name), Position(b, name);
    assert forall k :: 0 <= k < |a| ==> a[k].name == Names(a)[k] == Names(b)[k] == b[k].name;
  }

  /**
   * The logged deltas are exact, even when one metric moves several times or a
   * name repeats: read forward from the old list they give the stored one, and
   * read backward from the stored list they give the old one back.
   */
  lemma {:induction false} DeltasAreExact(metrics: seq<Metric>, moves: seq<Move>)
    requires Apply(metrics, moves).Ok?
    ensures var r := Apply(metrics, moves).value;
      && Forward(metrics, r.deltas) == Some(r.metrics)
      && Backward(r.metrics, r.deltas) == Some(metrics)
      && Names(r.metrics) == Names(metrics)
      && |r.deltas| == |moves|
      && forall i :: 0 <= i < |moves| ==> r.deltas[i].name == moves[i].name && r.deltas[i].after == moves[i].current
    decreases |moves|
  {
    if moves != [] {
      var at := Position(metrics, moves[0].name).value;
      var next := SetCurrent(metrics, at, moves[0].current);
      DeltasAreExact(next, moves[1..]);
      var r := Apply(metrics, moves).value;
      assert r.deltas[1..] == Apply(next, moves[1..]).value.deltas;
      assert Names(next) == Names(metrics);
      PositionByNames(next, metrics, moves[0].name);
      assert SetCurrent(next, at, metrics[at].current) == metrics;
      assert forall i :: 1 <= i < |moves| ==> moves[i] == moves[1..][i - 1];
    }
  }

  predicate FirstOfName(metrics: seq<Metric>, j: nat) {
    j < |metrics| && forall i :: 0 <= i < j ==> metrics[i].name != metrics[j].name
  }

  predicate LastMove(moves: seq<Move>, name: string, k: nat) {
    k < |moves| && moves[k].name == name && forall i :: k < i < |moves| ==> moves[i].name != name
  }

  predicate Unmoved(moves: seq<Move>, name: string) {
    forall i :: 0 <= i < |moves| ==> moves[i].name != name
  }

  /**
   * The first metric of each name stands where its last move puts it, and
   * nothing else about any metric changes.
   */
  lemma {:induction false} MovesOnlyCurrent(metrics: seq<Metric>, moves: seq<Move>, j: nat)
    requires Apply(metrics, moves).Ok? && j < |metrics|
    ensures var r := Apply(metrics, moves).value.metrics;
      && |r| == |metrics|
      && (forall k: nat :: FirstOfName(metrics, j) && LastMove(moves, metrics[j].name, k) ==>
            r[j] == metrics[j].(current := moves[k].current))
      && (!FirstOfName(metrics, j) || Unmoved(moves, metrics[j].name) ==> r[j] == metrics[j])
    decreases |moves|
  {
    if moves != [] {
      var at, rest := Position(metrics, moves[0].name).value, moves[1..];
      var next := SetCurrent(metrics, at, moves[0].current);
      MovesOnlyCurrent(next, rest, j);
      assert forall i :: 0 <= i < |metrics| ==> next[i].name == metrics[i].name;
      assert FirstOfName(next, j) <==> FirstOfName(metrics, j);
      assert forall i :: 0 <= i < |rest| ==> rest[i] == moves[i + 1];
      forall k: nat | FirstOfName(metrics, j) && LastMove(moves, metrics[j].name, k)
        ensures Apply(metrics, moves).value.metrics[j] == metrics[j].(current := moves[k].current)
      {
        if k == 0 { assert at == j && Unmoved(rest, metrics[j].name); } else { assert LastMove(rest, metrics[j].name, k - 1); }
      }
    }
  }

  /** The moves are refused exactly when one names no metric. */
  lemma {:induction false} UnknownNamesAreRefused(metrics: seq<Metric>, moves: seq<Move>)
    ensures Apply(metrics, moves).Ok? <==> forall i :: 0 <= i < |moves| ==> moves[i].name in Names(metrics)
    decreases |moves|
  {
    if moves != [] {
      var at := Position(metrics, moves[0].name);
      if at.Some? {
        var next := SetCurrent(metrics, at.value, moves[0].current);
        assert Names(next) == Names(metrics);
        assert Names(metrics)[at.value] == moves[0].name;
        UnknownNamesAreRefused(next, moves[1..]);
        assert forall i :: 1 <= i < |moves| ==> moves[i] == moves[1..][i - 1];
        assert forall i :: 0 <= i < |moves| - 1 ==> moves[1..][i] == moves[i + 1];
      } else {
        assert moves[0].name !in Names(metrics);
      }
    }
  }

  /** The nested loops of RecordGoalProgress over a copy of the list. */
  method ApplyMoves(stored: seq<Metric>, moves: seq<Move>) returns (r: Result<Moved, string>)
    ensures r == Apply(stored, moves)
  {
    var metrics := new Metric[|stored|](i requires 0 <= i < |stored| => stored[i]);
    var deltas: seq<Delta> := [];
    assert metrics[..] == stored && moves[0..] == moves;
    PrefixedPush([], Delta("", 0.0, 0.0), Apply(stored, moves));
    for n := 0 to |moves|
      invariant Apply(stored, moves) == Prefixed(deltas, Apply(metrics[..], moves[n..]))
    {
      var move := moves[n];
      assert moves[n..][0] == move && moves[n..][1..] == moves[n + 1..];
      ghost var was := metrics[..];
      var at := FindName(metrics, move.name);
      if at == metrics.Length { return Err(move.name); }
      var delta := Delta(move.name, metrics[at].current, move.current);
      metrics[at] := metrics[at].(current := move.current);
      assert metrics[..] == SetCurrent(was, at, move.current);
      PrefixedPush(deltas, delta, Apply(metrics[..], moves[n + 1..]));
      deltas := deltas + [delta];
    }
    assert moves[|moves|..] == [] && deltas + [] == deltas;
    r := Ok(Moved(metrics[..], deltas));
  }

  function Prefixed(deltas: seq<Delta>, r: Result<Moved, string>): Result<Moved, string> {
    if r.Err? then r else Ok(Moved(r.value.metrics, deltas + r.value.deltas))
  }

  lemma PrefixedPush(deltas: seq<Delta>, delta: Delta, r: Result<Moved, string>)
    ensures Prefixed(deltas, Prefixed([delta], r)) == Prefixed(deltas + [delta], r)
    ensures Prefixed([], r) == r
  {
    if r.Ok? {
      Assoc(deltas, [delta], r.value.deltas);
      assert [] + r.value.deltas == r.value.deltas;
    }
  }

  method FindName(metrics: array<Metric>, name: string) returns (at: nat)
    ensures at <= metrics.Length
    ensures Position(metrics[..], name) == if at == metrics.Length then None else Some(at)
  {
    for i := 0 to metrics.Length
      invariant forall j :: 0 <= j < i ==> metrics[j].name != name
    {
      if metrics[i].name == name {
        assert metrics[..][i].name == name;
        return i;
      }
    }
    assert forall i :: 0 <= i < |metrics[..]| ==> metrics[..][i].name != name;
    at := metrics.Length;
  }
}
