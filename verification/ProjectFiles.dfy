/**
 * Installing a clone over a project's files: what is there moves into a backup,
 * then the staged checkout moves in, one rename at a time. Any rename can fail
 * and end the work half way.
 */
module ProjectFiles {
  import opened Seqs

  /** A directory entry; a folder stands for everything below it. */
  datatype Node = File(data: int) | Folder(data: int)

  type Dir = map<string, Node>

  datatype Dirs = Dirs(root: Dir, stage: Dir, backup: Dir)

  /** Which system calls fail: names whose rename out of, or into, the root is refused. */
  datatype Faults = Faults(readRoot: bool, makeBackup: bool, out: set<string>, readStage: bool, into: set<string>)

  const BACKUPS: string := ".podiom-backups"
  const CLONE_PREFIX: string := ".podiom-clone-"

  /** The two families of entries that stay where they are. */
  predicate Skips(name: string) {
    name == BACKUPS || CLONE_PREFIX <= name
  }

  /** What stays in place: the backups, and every staging directory. */
  predicate Stays(name: string) {
    name == ".podiom-backups" || (|name| >= 14 && name[..14] == ".podiom-clone-")
  }

  lemma SkipsWhatStays()
    ensures forall name :: Skips(name) <==> Stays(name)
  {
    forall name ensures Skips(name) <==> Stays(name) {
      if CLONE_PREFIX <= name { assert name[..14] == CLONE_PREFIX; }
    }
  }

  /** Renaming onto a taken name replaces a file by a file, and is refused otherwise. */
  function Placed(to: Dir, name: string, node: Node): Option<Dir> {
    if name in to && (to[name].Folder? || node.Folder?) then None else Some(to[name := node])
  }

  /** The work so far, and whether it may go on. */
  datatype Progress = Progress(dirs: Dirs, ok: bool)

  function RenameOut(d: Dirs, name: string, f: Faults): Progress {
    if name !in d.root || name in f.out then Progress(d, false)
    else
      var placed := Placed(d.backup, name, d.root[name]);
      if placed.None? then Progress(d, false) else Progress(Dirs(d.root - {name}, d.stage, placed.value), true)
  }

  function RenameIn(d: Dirs, name: string, f: Faults): Progress {
    if name !in d.stage || name in f.into then Progress(d, false)
    else
      var placed := Placed(d.root, name, d.stage[name]);
      if placed.None? then Progress(d, false) else Progress(Dirs(placed.value, d.stage - {name}, d.backup), true)
  }

  function MoveOut(d: Dirs, names: seq<string>, f: Faults): Progress
    decreases |names|
  {
    if names == [] then Progress(d, true)
    else if Skips(names[0]) then MoveOut(d, names[1..], f)
    else
      var next := RenameOut(d, names[0], f);
      if !next.ok then next else MoveOut(next.dirs, names[1..], f)
  }

  function MoveIn(d: Dirs, names: seq<string>, f: Faults): Progress
    decreases |names|
  {
    if names == [] then Progress(d, true)
    else
      var next := RenameIn(d, names[0], f);
      if !next.ok then next else MoveIn(next.dirs, names[1..], f)
  }

  predicate AnyMoves(names: seq<string>) {
    exists i :: 0 <= i < |names| && !Skips(names[i])
  }

  /** replaceDirContents; entries and staged list the two directories as they are read. */
  function Replaced(d: Dirs, entries: seq<string>, staged: seq<string>, f: Faults): Progress {
    if f.readRoot || (f.makeBackup && AnyMoves(entries)) then Progress(d, false)
    else
      var out := MoveOut(d, entries, f);
      if !out.ok || f.readStage then Progress(out.dirs, false) else MoveIn(out.dirs, staged, f)
  }

  ghost predicate Lists(names: seq<string>, dir: Dir) {
    Distinct(names) && forall name :: name in names <==> name in dir
  }

  /** A listing of the root names every entry that will have to move. */
  ghost predicate Covers(names: seq<string>, dir: Dir) {
    Distinct(names) && forall name :: name in dir && !Stays(name) ==> name in names
  }

  // ------------------------------------------------------------ conservation

  function Look(dir: Dir, name: string): Option<Node> {
    if name in dir then Some(dir[name]) else None
  }

  /** The way out, seen at one name: it has moved to the backup, or nothing about it changed. */
  lemma {:induction false} MoveOutAt(d: Dirs, names: seq<string>, f: Faults, n: string)
    requires Distinct(names)
    ensures var p := MoveOut(d, names, f);
      var moved := Look(p.dirs.root, n) == None && Look(p.dirs.backup, n) == Look(d.root, n) != None;
      var same := Look(p.dirs.root, n) == Look(d.root, n) && Look(p.dirs.backup, n) == Look(d.backup, n);
      && p.dirs.stage == d.stage
      && (same || (moved && n in names && !Skips(n)))
      && (p.ok && n in names && !Skips(n) ==> moved)
    decreases |names|
  {
    if names != [] {
      if Skips(names[0]) {
        MoveOutAt(d, names[1..], f, n);
      } else {
        var next := RenameOut(d, names[0], f);
        if next.ok { MoveOutAt(next.dirs, names[1..], f, n); }
      }
    }
  }

  /** The way in, seen at one name. */
  lemma {:induction false} MoveInAt(d: Dirs, names: seq<string>, f: Faults, n: string)
    requires Distinct(names)
    ensures var p := MoveIn(d, names, f);
      var moved := Look(p.dirs.stage, n) == None && Look(p.dirs.root, n) == Look(d.stage, n) != None;
      var same := Look(p.dirs.stage, n) == Look(d.stage, n) && Look(p.dirs.root, n) == Look(d.root, n);
      && p.dirs.backup == d.backup
      && (same || (moved && n in names))
      && (p.ok && n in names ==> moved)
    decreases |names|
  {
    if names != [] {
      var next := RenameIn(d, names[0], f);
      if next.ok { MoveInAt(next.dirs, names[1..], f, n); }
    }
  }

  predicate KeptAt(d: Dirs, e: Dirs, n: string) {
    && (n in d.root ==> Look(e.root, n) == Look(d.root, n) || Look(e.backup, n) == Look(d.root, n))
    && (n in d.stage ==> Look(e.stage, n) == Look(d.stage, n) || Look(e.root, n) == Look(d.stage, n))
    && (n in d.backup ==> Look(e.backup, n) == Look(d.backup, n))
  }

  /** A former entry of any of the three directories is still in one of them, under its name. */
  ghost predicate Keeps(d: Dirs, e: Dirs) {
    forall n :: KeptAt(d, e, n)
  }

  /** Nothing different is overwritten: not an entry that stays, by a staged one, and not an earlier backup's, by one that moves. */
  ghost predicate OverwritesOnlyEqual(d: Dirs) {
    forall n :: EqualAt(d, n)
  }

  predicate EqualAt(d: Dirs, n: string) {
    && (n in d.stage && n in d.root && Stays(n) ==> d.stage[n] == d.root[n] || Look(d.backup, n) == Look(d.root, n))
    && (n in d.root && !Stays(n) && n in d.backup ==> d.backup[n] == d.root[n])
  }

  /**
   * However the work ends, no entry is lost, if nothing different is in the
   * way: each former root entry is in the root or in the backup, each staged
   * one is in the stage or in the root, and the backup keeps what it had.
   */
  lemma ReplacingConserves(d: Dirs, entries: seq<string>, staged: seq<string>, f: Faults)
    requires Covers(entries, d.root) && Lists(staged, d.stage) && OverwritesOnlyEqual(d)
    ensures Keeps(d, Replaced(d, entries, staged, f).dirs)
  {
    SkipsWhatStays();
    var e, mid := Replaced(d, entries, staged, f).dirs, MoveOut(d, entries, f).dirs;
    forall n ensures KeptAt(d, e, n) {
      assert EqualAt(d, n);
      MoveOutAt(d, entries, f, n);
      MoveInAt(mid, staged, f, n);
    }
  }

  /** What each name ends as: the checkout and what stays in the root, what was there in the backup. */
  lemma ReplacingEnds(d: Dirs, entries: seq<string>, staged: seq<string>, f: Faults, n: string)
    requires Covers(entries, d.root) && Lists(staged, d.stage) && Replaced(d, entries, staged, f).ok
    ensures var e := Replaced(d, entries, staged, f).dirs;
      && Look(e.root, n) == (if n in d.stage then Look(d.stage, n) else if Stays(n) then Look(d.root, n) else None)
      && Look(e.backup, n) == (if n in d.root && !Stays(n) then Look(d.root, n) else Look(d.backup, n))
      && Look(e.stage, n) == None
  {
    SkipsWhatStays();
    MoveOutAt(d, entries, f, n);
    MoveInAt(MoveOut(d, entries, f).dirs, staged, f, n);
  }

  /** A rename onto this entry is refused: one of the two is a folder. */
  predicate Bars(to: Dir, name: string, node: Node) {
    name in to && (to[name].Folder? || node.Folder?)
  }

  predicate GoesOut(d: Dirs, f: Faults, n: string) {
    n in d.root && n !in f.out && !Bars(d.backup, n, d.root[n])
  }

  predicate GoesIn(d: Dirs, f: Faults, n: string) {
    n in d.stage && n !in f.into && !Bars(d.root, n, d.stage[n])
  }

  lemma {:induction false} MoveOutFinishes(d: Dirs, names: seq<string>, f: Faults)
    requires Distinct(names)
    ensures MoveOut(d, names, f).ok <==> forall n :: n in names && !Skips(n) ==> GoesOut(d, f, n)
    decreases |names|
  {
    if names != [] {
      assert names == [names[0]] + names[1..];
      if Skips(names[0]) {
        MoveOutFinishes(d, names[1..], f);
      } else {
        var next := RenameOut(d, names[0], f);
        assert names[0] in names && (next.ok <==> GoesOut(d, f, names[0]));
        if next.ok {
          MoveOutFinishes(next.dirs, names[1..], f);
          assert forall n :: n in names[1..] ==> n != names[0] && (GoesOut(next.dirs, f, n) <==> GoesOut(d, f, n));
        }
      }
    }
  }

  lemma {:induction false} MoveInFinishes(d: Dirs, names: seq<string>, f: Faults)
    requires Distinct(names)
    ensures MoveIn(d, names, f).ok <==> forall n :: n in names ==> GoesIn(d, f, n)
    decreases |names|
  {
    if names != [] {
      assert names == [names[0]] + names[1..];
      var next := RenameIn(d, names[0], f);
      assert names[0] in names && (next.ok <==> GoesIn(d, f, names[0]));
      if next.ok {
        MoveInFinishes(next.dirs, names[1..], f);
        assert forall n :: n in names[1..] ==> n != names[0] && (GoesIn(next.dirs, f, n) <==> GoesIn(d, f, n));
      }
    }
  }

  /** An entry that has to move out can: the backup is made, it is there, and no folder is in the way. */
  predicate CanLeave(d: Dirs, f: Faults, n: string) {
    !f.makeBackup && n in d.root && n !in f.out && !Bars(d.backup, n, d.root[n])
  }

  /** A staged entry can move in: no folder that stays is in the way, and it does not replace a file as a folder. */
  predicate CanEnter(d: Dirs, f: Faults, n: string) {
    n !in f.into && (Stays(n) && n in d.stage ==> !Bars(d.root, n, d.stage[n]))
  }

  /** A replacement finishes exactly when both directories can be read and every entry can move where it has to. */
  lemma ReplacingFinishesExactly(d: Dirs, entries: seq<string>, staged: seq<string>, f: Faults)
    requires Covers(entries, d.root) && Lists(staged, d.stage)
    ensures Replaced(d, entries, staged, f).ok <==>
      && !f.readRoot && !f.readStage
      && (forall n :: n in entries && !Stays(n) ==> CanLeave(d, f, n))
      && (forall n :: n in staged ==> CanEnter(d, f, n))
  {
    SkipsWhatStays();
    var out := MoveOut(d, entries, f);
    MoveOutFinishes(d, entries, f);
    MoveInFinishes(out.dirs, staged, f);
    if f.makeBackup && AnyMoves(entries) {
      var i :| 0 <= i < |entries| && !Skips(entries[i]);
      assert entries[i] in entries && !CanLeave(d, f, entries[i]);
    }
    if out.ok {
      forall n | n in staged ensures GoesIn(out.dirs, f, n) <==> CanEnter(d, f, n) { MoveOutAt(d, entries, f, n); }
    }
  }

  /**
   * A finished replacement has lost nothing exactly when no staged entry met a
   * different one that stays, and no entry that moved met a different one in a
   * backup of the same name (its name has a resolution of one second).
   */
  lemma LossExactly(d: Dirs, entries: seq<string>, staged: seq<string>, f: Faults)
    requires Covers(entries, d.root) && Lists(staged, d.stage) && Replaced(d, entries, staged, f).ok
    ensures Keeps(d, Replaced(d, entries, staged, f).dirs) <==> OverwritesOnlyEqual(d)
  {
    var e := Replaced(d, entries, staged, f).dirs;
    forall n ensures KeptAt(d, e, n) <==> EqualAt(d, n) {
      ReplacingEnds(d, entries, staged, f, n);
    }
    if Keeps(d, e) {
      forall n ensures EqualAt(d, n) { assert KeptAt(d, e, n); }
    }
    if OverwritesOnlyEqual(d) {
      forall n ensures KeptAt(d, e, n) { assert EqualAt(d, n); }
    }
  }

  /** Such a checkout: it holds a file named like a staging directory, and one of that name stays in the root. */
  lemma AStagedNameLoses()
    ensures var name := ".podiom-clone-a";
      var d := Dirs(map[name := File(1)], map[name := File(2)], map[]);
      var r := Replaced(d, [name], [name], Faults(false, false, {}, false, {}));
      r.ok && r.dirs.root == map[name := File(2)] && !Keeps(d, r.dirs)
  {
    var name := ".podiom-clone-a";
    var d := Dirs(map[name := File(1)], map[name := File(2)], map[]);
    var f := Faults(false, false, {}, false, {});
    SkipsWhatStays();
    assert name[..14] == CLONE_PREFIX;
    var names := [name];
    assert Skips(name) && names[1..] == [];
    assert MoveOut(d, names, f) == Progress(d, true) by { assert MoveOut(d, names[1..], f) == Progress(d, true); }
    var moved := RenameIn(d, name, f);
    assert moved.ok && moved.dirs.root == map[name := File(2)];
    assert MoveIn(d, names, f) == MoveIn(moved.dirs, names[1..], f) == moved;
    LossExactly(d, [name], [name], f);
    assert !EqualAt(d, name);
  }

  /** And such a backup: one made in the same second already holds another file of the name. */
  lemma AnEarlierBackupLoses()
    ensures var d := Dirs(map["f" := File(1)], map[], map["f" := File(2)]);
      var r := Replaced(d, ["f"], [], Faults(false, false, {}, false, {}));
      r.ok && r.dirs.backup == map["f" := File(1)] && !Keeps(d, r.dirs)
  {
    var d := Dirs(map["f" := File(1)], map[], map["f" := File(2)]);
    var f := Faults(false, false, {}, false, {});
    assert "f"[0] != BACKUPS[0] && "f"[0] != CLONE_PREFIX[0];
    SkipsWhatStays();
    assert !Skips("f") && ["f"][1..] == [];
    var moved := RenameOut(d, "f", f);
    assert moved.ok && moved.dirs.backup == map["f" := File(1)];
    assert MoveOut(d, ["f"], f) == MoveOut(moved.dirs, [], f) == moved;
    assert MoveIn(moved.dirs, [], f) == moved;
    LossExactly(d, ["f"], [], f);
    assert !EqualAt(d, "f");
  }

  // ------------------------------------------------------------- the loops

  /** The directories on disk, and the name of the backup made, if any. */
  class ProjectFolders {
    var root: Dir
    var stage: Dir
    var backup: Dir

    ghost function State(): Dirs
      reads this
    {
      Dirs(root, stage, backup)
    }

    constructor (root: Dir, stage: Dir, backup: Dir)
      ensures State() == Dirs(root, stage, backup)
    {
      this.root, this.stage, this.backup := root, stage, backup;
    }

    method Rename(name: string, f: Faults, outward: bool) returns (ok: bool)
      modifies this
      ensures Progress(State(), ok) == if outward then RenameOut(old(State()), name, f) else RenameIn(old(State()), name, f)
    {
      if outward {
        if name !in root || name in f.out { return false; }
        var placed := Placed(backup, name, root[name]);
        if placed.None? { return false; }
        backup, root := placed.value, root - {name};
      } else {
        if name !in stage || name in f.into { return false; }
        var placed := Placed(root, name, stage[name]);
        if placed.None? { return false; }
        root, stage := placed.value, stage - {name};
      }
      ok := true;
    }

    /** stamp names the backup directory; the name returned is empty when nothing had to move. */
    method ReplaceDirContents(entries: seq<string>, staged: seq<string>, f: Faults, stamp: string)
      returns (ok: bool, made: string)
      requires stamp != ""
      modifies this
      ensures Progress(State(), ok) == Replaced(old(State()), entries, staged, f)
      ensures ok ==> (made == "" <==> forall n :: n in entries ==> Stays(n)) && (made == "" || made == stamp)
    {
      SkipsWhatStays();
      made := "";
      if f.readRoot { return false, ""; }
      ghost var was := State();
      for i := 0 to |entries|
        invariant MoveOut(was, entries, f) == MoveOut(State(), entries[i..], f)
        invariant made == "" <==> forall j :: 0 <= j < i ==> Skips(entries[j])
        invariant made == "" || made == stamp
        invariant made == "" ==> State() == was
        invariant f.makeBackup ==> made == ""
      {
        assert entries[i..][0] == entries[i] && entries[i..][1..] == entries[i + 1..];
        if Skips(entries[i]) { continue; }
        if made == "" {
          if f.makeBackup { return false, ""; }
          made := stamp;
        }
        var moved := Rename(entries[i], f, true);
        if !moved { return false, ""; }
      }
      assert entries[|entries|..] == [];
      assert made == "" <==> !AnyMoves(entries);
      if f.readStage { return false, ""; }
      ghost var mid := State();
      for i := 0 to |staged|
        invariant MoveIn(mid, staged, f) == MoveIn(State(), staged[i..], f)
      {
        assert staged[i..][0] == staged[i] && staged[i..][1..] == staged[i + 1..];
        var moved := Rename(staged[i], f, false);
        if !moved { return false, ""; }
      }
      assert staged[|staged|..] == [];
      ok := true;
    }
  }

  // -------------------------------------------------- connecting a remote

  datatype Outcome = Unconfirmed | CloneFailed | ReplaceFailed | Installed

  /**
   * A request to connect a remote. The staging directory gets the fresh name
   * clone; when the code directory is the project directory itself (shared), it
   * and the backups show up among the code. checkout is None if cloning fails,
   * and stamp names the backup directory.
   */
  datatype Request = Request(
    shared: bool, force: bool, clone: string, checkout: Option<Dir>, entries: seq<string>, staged: seq<string>,
    faults: Faults, stamp: string)

  datatype Project = Project(code: Dir, backups: map<string, Dir>)

  /** A directory with a folder made in it, unless it is there already. */
  function Plus(dir: Dir, name: string, wanted: bool): Dir {
    if wanted && name !in dir then dir[name := Folder(0)] else dir
  }

  function Minus(dir: Dir, name: string, wanted: bool): Dir {
    if wanted then dir - {name} else dir
  }

  function BackupAt(p: Project, stamp: string): Dir {
    if stamp in p.backups then p.backups[stamp] else map[]
  }

  predicate MakesBackup(r: Request) {
    AnyMoves(r.entries) && !r.faults.readRoot && !r.faults.makeBackup
  }

  /** The directories replaceDirContents starts from. */
  function Beginning(p: Project, r: Request): Dirs
    requires r.checkout.Some?
  {
    Dirs(Plus(Plus(p.code, r.clone, r.shared), BACKUPS, r.shared && MakesBackup(r)), r.checkout.value, BackupAt(p, r.stamp))
  }

  /** ConfigureProjectGit for a remote with no checkout yet, with cloneProjectRemote. */
  function Connect(p: Project, r: Request): (Outcome, Project) {
    if !r.force && p.code != map[] then (Unconfirmed, p)
    else if r.checkout.None? then (CloneFailed, Project(Minus(Plus(p.code, r.clone, r.shared), r.clone, r.shared), p.backups))
    else
      var end := Replaced(Beginning(p, r), r.entries, r.staged, r.faults);
      (if end.ok then Installed else ReplaceFailed,
       Project(Minus(end.dirs.root, r.clone, r.shared),
               if MakesBackup(r) then p.backups[r.stamp := end.dirs.backup] else p.backups))
  }

  /** What holds of every request: a fresh staging name, and listings of what is there. */
  ghost predicate Proper(p: Project, r: Request) {
    && CLONE_PREFIX <= r.clone && r.clone !in p.code && r.stamp != ""
    && Covers(r.entries, Plus(p.code, r.clone, r.shared))
    && (r.checkout.Some? ==> Lists(r.staged, r.checkout.value))
  }

  /** An unconfirmed request and a failed clone leave the project exactly as it was. */
  lemma RefusalChangesNothing(p: Project, r: Request)
    requires Proper(p, r)
    ensures Connect(p, r).0 == Unconfirmed || Connect(p, r).0 == CloneFailed ==> Connect(p, r).1 == p
    ensures !r.force && p.code != map[] ==> Connect(p, r).0 == Unconfirmed
  {
    if r.shared { assert p.code[r.clone := Folder(0)] - {r.clone} == p.code; }
  }

  /**
   * An installed clone has the code directory to itself, but for the entries
   * that stay, and what was there before is in the backup.
   */
  lemma InstalledKeepsTheOldCode(p: Project, r: Request, n: string)
    requires Proper(p, r) && Connect(p, r).0 == Installed
    ensures var q := Connect(p, r).1;
      && (n != BACKUPS && n != r.clone ==>
            Look(q.code, n) == (if n in r.checkout.value then Look(r.checkout.value, n) else if Stays(n) then Look(p.code, n) else None))
      && (n in p.code && !Stays(n) ==> r.stamp in q.backups && Look(q.backups[r.stamp], n) == Look(p.code, n))
      && (forall other :: other in p.backups && other != r.stamp ==> other in q.backups && q.backups[other] == p.backups[other])
  {
    var d := Beginning(p, r);
    SkipsWhatStays();
    assert Covers(r.entries, d.root) by { assert Skips(BACKUPS) && Skips(r.clone); }
    ReplacingEnds(d, r.entries, r.staged, r.faults, n);
    if n in p.code && !Stays(n) { assert n in r.entries; }
  }

  /** One entry of the old code is still in the code directory, or in the backup. */
  predicate StillThere(p: Project, q: Project, stamp: string, n: string) {
    Look(q.code, n) == Look(p.code, n) || (stamp in q.backups && Look(q.backups[stamp], n) == Look(p.code, n))
  }

  /** One that stays in place is replaced by a different one of the checkout, and no backup happens to hold it. */
  predicate Replaces(p: Project, r: Request, n: string)
    requires n in p.code
  {
    && Stays(n) && r.checkout.Some? && n in r.checkout.value && r.checkout.value[n] != p.code[n]
    && Look(BackupAt(p, r.stamp), n) != Look(p.code, n)
  }

  /**
   * Whatever the outcome, an entry that was in the code directory is still
   * there or in the backup, unless it is one that stays in place and the
   * checkout has a different one of its name; an installed clone replaces that.
   */
  lemma OldCodeIsKeptExactly(p: Project, r: Request, n: string)
    requires Proper(p, r) && n in p.code
    ensures var c := Connect(p, r);
      && (!Replaces(p, r, n) ==> StillThere(p, c.1, r.stamp, n))
      && (c.0 == Installed && Replaces(p, r, n) ==> !StillThere(p, c.1, r.stamp, n))
  {
    RefusalChangesNothing(p, r);
    SkipsWhatStays();
    if (r.force || p.code == map[]) && r.checkout.Some? {
      var d := Beginning(p, r);
      assert Look(d.root, n) == Look(p.code, n) && n != r.clone;
      MoveOutAt(d, r.entries, r.faults, n);
      MoveInAt(MoveOut(d, r.entries, r.faults).dirs, r.staged, r.faults, n);
    }
  }

  /** No entry of the old code is lost, but for those in place that the checkout replaces. */
  ghost predicate KeepsOldCode(p: Project, q: Project, r: Request) {
    forall n :: n in p.code && !Replaces(p, r, n) ==> StillThere(p, q, r.stamp, n)
  }

  class ProjectFoldersOnDisk {
    var project: Project

    constructor (project: Project)
      ensures this.project == project
    {
      this.project := project;
    }

    /** A refusal and a failed clone leave the project as it was; whatever happens, the old code is still somewhere. */
    method ConnectRemote(r: Request) returns (outcome: Outcome)
      requires Proper(project, r)
      modifies this
      ensures (outcome, project) == Connect(old(project), r)
      ensures outcome == Unconfirmed <==> !r.force && old(project).code != map[]
      ensures outcome == CloneFailed <==> (r.force || old(project).code == map[]) && r.checkout.None?
      ensures outcome == Unconfirmed || outcome == CloneFailed ==> project == old(project)
      ensures r.shared ==> r.clone !in project.code
      ensures KeepsOldCode(old(project), project, r)
    {
      ghost var was := project;
      RefusalChangesNothing(was, r);
      forall n | n in was.code && !Replaces(was, r, n) ensures StillThere(was, Connect(was, r).1, r.stamp, n) {
        OldCodeIsKeptExactly(was, r, n);
      }
      if !r.force && project.code != map[] { return Unconfirmed; }
      var code := Plus(project.code, r.clone, r.shared);
      if r.checkout.None? {
        project := project.(code := Minus(code, r.clone, r.shared));
        return CloneFailed;
      }
      code := Plus(code, BACKUPS, r.shared && MakesBackup(r));
      var folders := new ProjectFolders(code, r.checkout.value, BackupAt(project, r.stamp));
      var ok, name := folders.ReplaceDirContents(r.entries, r.staged, r.faults, r.stamp);
      var backups := project.backups;
      if MakesBackup(r) { backups := backups[r.stamp := folders.backup]; }
      project := Project(Minus(folders.root, r.clone, r.shared), backups);
      outcome := if ok then Installed else ReplaceFailed;
    }
  }
}
