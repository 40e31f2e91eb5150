/** The bounded tails of what a provider process writes: its last bytes, and its last error lines. */
module Tails {
  import opened Seqs
  import opened Text

  const STDERR_LINES: nat := 20

  /** What a tail of some limit keeps of everything written. */
  function Tail<T>(written: seq<T>, limit: int): seq<T> {
    if limit <= 0 then [] else LastN(written, limit)
  }

  class LimitedTail {
    const limit: int
    var data: seq<bv8>

    constructor (limit: int)
      ensures this.limit == limit && data == []
    {
      this.limit, data := limit, [];
    }

    /** Write never fails and always takes all of p. */
    method Write(p: seq<bv8>) returns (n: nat)
      requires |data| <= if limit <= 0 then 0 else limit
      modifies this`data
      ensures n == |p|
      ensures |data| <= if limit <= 0 then 0 else limit
      ensures data == Tail(old(data) + p, limit)
    {
      n := |p|;
      if limit <= 0 { return; }
      if |p| >= limit {
        assert LastN(data + p, limit) == p[|p| - limit..];
        data := p[|p| - limit..];
        return;
      }
      data := data + p;
      var overflow := |data| - limit;
      if overflow > 0 {
        data := data[overflow..] + data[|data| - overflow..];
        data := data[..limit];
      }
    }

    /** collectStderr's copy: one write for every chunk read. */
    method Copy(chunks: seq<seq<bv8>>)
      requires data == []
      modifies this`data
      ensures data == Tail(Flat(chunks), limit)
    {
      for i := 0 to |chunks|
        invariant data == Tail(Flat(chunks[..i]), limit)
      {
        var n := Write(chunks[i]);
        TailOfTail(Flat(chunks[..i]), chunks[i], limit);
        FlatPush(chunks[..i], chunks[i]);
        assert chunks[..i + 1] == chunks[..i] + [chunks[i]];
      }
      assert chunks[..|chunks|] == chunks;
    }
  }

  function Flat<T>(chunks: seq<seq<T>>): seq<T> {
    if chunks == [] then [] else chunks[0] + Flat(chunks[1..])
  }

  lemma {:induction false} FlatPush<T>(chunks: seq<seq<T>>, chunk: seq<T>)
    ensures Flat(chunks + [chunk]) == Flat(chunks) + chunk
  {
    if chunks == [] {
      assert chunks + [chunk] == [chunk] && [chunk][1..] == [];
    } else {
      TailOfConcat(chunks, [chunk]);
      FlatPush(chunks[1..], chunk);
      Assoc(chunks[0], Flat(chunks[1..]), chunk);
    }
  }

  /** Cutting after every write keeps what one cut at the end would. */
  lemma TailOfTail<T>(written: seq<T>, more: seq<T>, limit: int)
    ensures Tail(Tail(written, limit) + more, limit) == Tail(written + more, limit)
  {
    if limit > 0 { LastNAppend(written, more, limit); }
  }

  /** However the bytes are cut into writes, the tail is the same: the last limit bytes of all of them. */
  lemma {:induction false} ChunkingDoesNotMatter<T>(some: seq<seq<T>>, others: seq<seq<T>>, limit: int)
    requires Flat(some) == Flat(others)
    ensures Written([], some, limit) == Written([], others, limit) == Tail(Flat(some), limit)
  {
    NothingBefore(some, limit);
    NothingBefore(others, limit);
  }

  lemma {:induction false} NothingBefore<T>(chunks: seq<seq<T>>, limit: int)
    ensures Written([], chunks, limit) == Tail(Flat(chunks), limit)
  {
    WrittenIsTail([], chunks, limit);
    assert [] + Flat(chunks) == Flat(chunks);
  }

  /** The tail after some writes, one at a time. */
  function Written<T>(data: seq<T>, chunks: seq<seq<T>>, limit: int): seq<T>
    decreases |chunks|
  {
    if chunks == [] then data else Written(Tail(data + chunks[0], limit), chunks[1..], limit)
  }

  lemma {:induction false} WrittenIsTail<T>(sofar: seq<T>, chunks: seq<seq<T>>, limit: int)
    ensures Written(Tail(sofar, limit), chunks, limit) == Tail(sofar + Flat(chunks), limit)
    ensures Tail<T>([], limit) == []
    decreases |chunks|
  {
    if chunks == [] {
      assert sofar + [] == sofar;
    } else {
      TailOfTail(sofar, chunks[0], limit);
      WrittenIsTail(sofar + chunks[0], chunks[1..], limit);
      Assoc(sofar, chunks[0], Flat(chunks[1..]));
    }
  }

  // ------------------------------------------------------------ error lines

  /** The non-blank lines, trimmed. */
  function Spoken(lines: seq<string>): seq<string> {
    if lines == [] then []
    else if Blank(lines[0]) then Spoken(lines[1..])
    else [Trim(lines[0])] + Spoken(lines[1..])
  }

  lemma {:induction false} SpokenPush(lines: seq<string>, line: string)
    ensures Spoken(lines + [line]) == if Blank(line) then Spoken(lines) else Spoken(lines) + [Trim(line)]
  {
    if lines == [] {
      assert lines + [line] == [line] && [line][1..] == [];
    } else {
      TailOfConcat(lines, [line]);
      SpokenPush(lines[1..], line);
    }
  }

  /** The last error lines of a process; since is every line it wrote since it started. */
  class StderrTail {
    var tail: seq<string>
    ghost var since: seq<string>

    ghost predicate Valid()
      reads this
    {
      tail == LastN(Spoken(since), STDERR_LINES)
    }

    constructor ()
      ensures Valid() && since == []
    {
      tail, since := [], [];
    }

    /** A new process starts. */
    method Clear()
      modifies this
      ensures Valid() && since == [] && tail == []
    {
      tail, since := [], [];
    }

    method Record(raw: string)
      requires Valid()
      modifies this
      ensures Valid() && since == old(since) + [raw]
      ensures tail == LastN(Spoken(old(since) + [raw]), 20)
      ensures tail == if Blank(raw) then old(tail) else LastN(old(tail) + [Trim(raw)], 20)
    {
      SpokenPush(since, raw);
      LastNAppend(Spoken(since), [Trim(raw)], STDERR_LINES);
      since := since + [raw];
      var line := Trim(raw);
      if line == "" { return; }
      tail := tail + [line];
      if |tail| > STDERR_LINES {
        tail := tail[|tail| - STDERR_LINES..];
      }
    }
  }
}
