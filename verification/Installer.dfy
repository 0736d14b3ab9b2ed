/**
 The transactional installer: `install_file` with its undo log, the three replays of that
 log (rollback, revert before a reinstall, uninstall), the commit, and the uninstaller's
 fallback for a lost state file. Files are regular files; directories are not modelled.
 */
module Installer {
  import opened Common
  import PamStack

  type Path = string

  datatype File = File(lines: seq<string>, mode: nat)

  type Files = map<Path, File>

  /** The tab-separated lines of the log; `Note` stands for those that touch no file. */
  datatype Entry =
    | Created(path: Path)
    | Replaced(path: Path, backup: Path)
    | Note(action: string)

  datatype Op = Op(dst: Path, file: File)

  datatype Disk = Disk(files: Files, log: seq<Entry>)

  const BACKUP_SUFFIX := ".pre-sentinel.bak"

  function Bak(p: Path): (b: Path)
    ensures |b| > |p| && b[..|p|] == p
  {
    p + BACKUP_SUFFIX
  }

  lemma BakInjective(p: Path, q: Path)
    requires Bak(p) == Bak(q)
    ensures p == q
  {
    assert |p| == |Bak(p)| - |BACKUP_SUFFIX| == |q|;
    assert Bak(p)[..|p|] == p && Bak(q)[..|q|] == q;
  }

  function At(files: Files, p: Path): Option<File> {
    if p in files then Some(files[p]) else None
  }

  /** The files with path `p` holding `now`, or nothing. */
  function Holding(files: Files, p: Path, now: Option<File>): Files {
    if now.Some? then files[p := now.value] else files - {p}
  }

  // ---- installing

  function EntryFor(files: Files, dst: Path): Entry {
    if dst in files then Replaced(dst, Bak(dst)) else Created(dst)
  }

  /** An existing destination is copied aside, but never over an earlier copy. */
  function BackedUp(files: Files, dst: Path): Files {
    if dst in files && Bak(dst) !in files then files[Bak(dst) := files[dst]] else files
  }

  function InstallOne(s: Disk, op: Op): Disk {
    Disk(BackedUp(s.files, op.dst)[op.dst := op.file], s.log + [EntryFor(s.files, op.dst)])
  }

  function InstallAll(files: Files, ops: seq<Op>): Disk {
    if ops == [] then Disk(files, [])
    else InstallOne(InstallAll(files, ops[..|ops| - 1]), ops[|ops| - 1])
  }

  // ---- undoing

  function Moved(files: Files, from: Path, to: Path): Files
    requires from in files
  {
    (files - {from})[to := files[from]]
  }

  function Undo(files: Files, e: Entry): Files {
    match e
    case Created(p) => files - {p}
    case Replaced(p, b) => if b in files then Moved(files, b, p) else files
    case Note(_) => files
  }

  /** The log replayed backwards, as `tac` hands it out. */
  function UndoAll(files: Files, log: seq<Entry>): Files
    decreases |log|
  {
    if log == [] then files else UndoAll(Undo(files, log[|log| - 1]), log[..|log| - 1])
  }

  lemma UndoLast(files: Files, log: seq<Entry>, e: Entry)
    ensures UndoAll(files, log + [e]) == UndoAll(Undo(files, e), log)
  {
    assert (log + [e])[..|log|] == log;
  }

  // ---- one destination at a time

  /** A destination and its backup. */
  datatype Spot = Spot(file: Option<File>, backup: Option<File>)

  function SpotAt(files: Files, d: Path): Spot {
    Spot(At(files, d), At(files, Bak(d)))
  }

  function Put(s: Spot, f: File): Spot {
    Spot(Some(f), if s.file.Some? && s.backup.None? then s.file else s.backup)
  }

  function TakeBack(s: Spot): Spot {
    if s.backup.Some? then Spot(s.backup, None) else s
  }

  /** Neither of two paths is the other's backup. */
  predicate Apart(d: Path, e: Path) {
    d != Bak(e) && e != Bak(d)
  }

  function Count(ops: seq<Op>, d: Path): nat {
    if ops == [] then 0
    else Count(ops[..|ops| - 1], d) + if ops[|ops| - 1].dst == d then 1 else 0
  }

  predicate ApartFrom(ops: seq<Op>, d: Path) {
    forall i :: 0 <= i < |ops| ==> Apart(d, ops[i].dst)
  }

  lemma InstallOneAt(s: Disk, op: Op, d: Path)
    requires Apart(d, op.dst)
    ensures SpotAt(InstallOne(s, op).files, d) ==
      if d == op.dst then Put(SpotAt(s.files, d), op.file) else SpotAt(s.files, d)
  {
    if d != op.dst && Bak(d) == Bak(op.dst) {
      BakInjective(d, op.dst);
    }
  }

  lemma UndoAt(files: Files, dst: Path, d: Path, existed: bool)
    requires Apart(d, dst)
    ensures SpotAt(Undo(files, if existed then Replaced(dst, Bak(dst)) else Created(dst)), d) ==
      if d != dst then SpotAt(files, d)
      else if existed then TakeBack(SpotAt(files, d))
      else Spot(None, At(files, Bak(d)))
  {
    if d != dst && Bak(d) == Bak(dst) {
      BakInjective(d, dst);
    }
  }

  /** What a run of installs makes of one destination and its backup. */
  lemma {:induction false} InstallAllAt(files: Files, ops: seq<Op>, d: Path)
    requires ApartFrom(ops, d)
    ensures var was := SpotAt(files, d);
      var now := SpotAt(InstallAll(files, ops).files, d);
      && (Count(ops, d) == 0 ==> now == was)
      && (Count(ops, d) > 0 ==> now.file.Some?)
      && (was.backup.Some? ==> now.backup == was.backup)
      && (was.backup.None? && was.file.Some? && Count(ops, d) > 0 ==> now.backup == was.file)
      && (was.backup.None? && was.file.None? && Count(ops, d) == 1 ==> now.backup == None)
  {
    if ops != [] {
      var front := ops[..|ops| - 1];
      InstallAllAt(files, front, d);
      InstallOneAt(InstallAll(files, front), ops[|ops| - 1], d);
    }
  }

  /** After a run each destination holds, with its mode, what was last installed there. */
  lemma {:induction false} InstalledIsThere(files: Files, ops: seq<Op>, i: nat)
    requires i < |ops| && forall j :: 0 <= j < |ops| ==> Apart(ops[i].dst, ops[j].dst)
    requires forall j :: i < j < |ops| ==> ops[j].dst != ops[i].dst
    ensures At(InstallAll(files, ops).files, ops[i].dst) == Some(ops[i].file)
  {
    var front := ops[..|ops| - 1];
    InstallOneAt(InstallAll(files, front), ops[|ops| - 1], ops[i].dst);
    if i < |ops| - 1 {
      assert front[i] == ops[i];
      InstalledIsThere(files, front, i);
    }
  }

  /** Undoing the last install of a run, seen at one destination. */
  lemma UndoLastAt(files: Files, ops: seq<Op>, now: Files, d: Path)
    requires ops != [] && ApartFrom(ops, d)
    ensures var front := InstallAll(files, ops[..|ops| - 1]);
      var op := ops[|ops| - 1];
      var next := Undo(now, EntryFor(front.files, op.dst));
      && UndoAll(now, InstallAll(files, ops).log) == UndoAll(next, front.log)
      && SpotAt(next, d) ==
           if d != op.dst then SpotAt(now, d)
           else if d in front.files then TakeBack(SpotAt(now, d))
           else Spot(None, At(now, Bak(d)))
  {
    var front := InstallAll(files, ops[..|ops| - 1]);
    var op := ops[|ops| - 1];
    UndoLast(now, front.log, EntryFor(front.files, op.dst));
    UndoAt(now, op.dst, d, op.dst in front.files);
  }

  /** Replay, once the backup has already been put back. */
  lemma {:induction false} ReplaySpent(files: Files, ops: seq<Op>, now: Files, d: Path)
    requires ApartFrom(ops, d)
    requires At(now, Bak(d)) == None
    requires d in files && Bak(d) in InstallAll(files, ops).files
      ==> At(now, d) == At(InstallAll(files, ops).files, Bak(d))
    ensures var was := SpotAt(files, d);
      Count(ops, d) > 0 ==>
        SpotAt(UndoAll(now, InstallAll(files, ops).log), d) ==
        Spot(if was.file.None? then None else if was.backup.Some? then was.backup else was.file, None)
    ensures Count(ops, d) == 0 ==> SpotAt(UndoAll(now, InstallAll(files, ops).log), d) == SpotAt(now, d)
  {
    if ops != [] {
      var front := ops[..|ops| - 1];
      var next := Undo(now, EntryFor(InstallAll(files, front).files, ops[|ops| - 1].dst));
      UndoLastAt(files, ops, now, d);
      InstallAllAt(files, front, d);
      InstallAllAt(files, ops, d);
      InstallOneAt(InstallAll(files, front), ops[|ops| - 1], d);
      if Count(front, d) > 0 || ops[|ops| - 1].dst != d {
        ReplaySpent(files, front, next, d);
      } else {
        Untouched(files, front, next, d);
      }
    }
  }

  /** A log with no entry for a destination leaves it and its backup alone. */
  lemma {:induction false} Untouched(files: Files, ops: seq<Op>, now: Files, d: Path)
    requires ApartFrom(ops, d) && Count(ops, d) == 0
    ensures SpotAt(UndoAll(now, InstallAll(files, ops).log), d) == SpotAt(now, d)
  {
    if ops != [] {
      var front := ops[..|ops| - 1];
      UndoLastAt(files, ops, now, d);
      Untouched(files, front, Undo(now, EntryFor(InstallAll(files, front).files, ops[|ops| - 1].dst)), d);
    }
  }

  /**
   What replaying the log gives at one destination, whatever that destination holds by
   then: the first thing ever copied aside, or nothing where nothing was; and the backup
   is gone unless it was there before and never used.
   */
  lemma {:induction false} ReplayAt(files: Files, ops: seq<Op>, now: Files, d: Path)
    requires ApartFrom(ops, d) && Count(ops, d) > 0
    requires At(now, Bak(d)) == At(InstallAll(files, ops).files, Bak(d))
    ensures var was := SpotAt(files, d);
      SpotAt(UndoAll(now, InstallAll(files, ops).log), d) ==
        if was.file.Some? then Spot(if was.backup.Some? then was.backup else was.file, None)
        else Spot(None, if Count(ops, d) == 1 then was.backup else None)
  {
    var front := ops[..|ops| - 1];
    var next := Undo(now, EntryFor(InstallAll(files, front).files, ops[|ops| - 1].dst));
    UndoLastAt(files, ops, now, d);
    InstallAllAt(files, front, d);
    InstallAllAt(files, ops, d);
    InstallOneAt(InstallAll(files, front), ops[|ops| - 1], d);
    if ops[|ops| - 1].dst != d {
      ReplayAt(files, front, next, d);
    } else if Count(front, d) > 0 {
      ReplaySpent(files, front, next, d);
    } else {
      Untouched(files, front, next, d);
    }
  }

  // ---- the whole disk

  function Dsts(ops: seq<Op>): (ds: set<Path>)
    ensures forall op :: op in ops ==> op.dst in ds
    ensures forall d :: d in ds ==> Count(ops, d) > 0 && exists op :: op in ops && op.dst == d
  {
    if ops == [] then {} else Dsts(ops[..|ops| - 1]) + {ops[|ops| - 1].dst}
  }

  /** No destination is the backup of a destination. */
  predicate Separate(ops: seq<Op>) {
    forall i, j :: 0 <= i < |ops| && 0 <= j < |ops| ==> ops[i].dst != Bak(ops[j].dst)
  }

  /** No path has a backup from before, or it did not exist then and is installed just once. */
  predicate Restorable(files: Files, ops: seq<Op>) {
    forall d :: d in Dsts(ops) ==> Bak(d) !in files || (d !in files && Count(ops, d) == 1)
  }

  /** Two disks that differ at most at the given paths. */
  ghost predicate AgreeOff(a: Files, b: Files, ds: set<Path>) {
    forall q :: q !in ds ==> At(a, q) == At(b, q)
  }

  lemma SeparateIsApart(ops: seq<Op>, d: Path)
    requires Separate(ops) && d in Dsts(ops)
    ensures ApartFrom(ops, d)
  {
    var op :| op in ops && op.dst == d;
    var j :| 0 <= j < |ops| && ops[j] == op;
    forall i | 0 <= i < |ops| ensures Apart(d, ops[i].dst) {
      assert ops[i].dst != Bak(ops[j].dst) && ops[j].dst != Bak(ops[i].dst);
    }
  }

  lemma OneElsewhere(s: Disk, op: Op, now: Files, q: Path)
    requires q != op.dst && q != Bak(op.dst)
    ensures At(InstallOne(s, op).files, q) == At(s.files, q)
    ensures At(Undo(now, EntryFor(s.files, op.dst)), q) == At(now, q)
  {
  }

  /** Neither an install nor its undoing touches anything but the destinations and their backups. */
  lemma {:induction false} Elsewhere(files: Files, ops: seq<Op>, now: Files, q: Path)
    requires forall i :: 0 <= i < |ops| ==> q != ops[i].dst && q != Bak(ops[i].dst)
    ensures At(InstallAll(files, ops).files, q) == At(files, q)
    ensures At(UndoAll(now, InstallAll(files, ops).log), q) == At(now, q)
  {
    if ops != [] {
      var front := InstallAll(files, ops[..|ops| - 1]);
      var op := ops[|ops| - 1];
      OneElsewhere(front, op, now, q);
      UndoLast(now, front.log, EntryFor(front.files, op.dst));
      Elsewhere(files, ops[..|ops| - 1], Undo(now, EntryFor(front.files, op.dst)), q);
    }
  }

  /** What a replay leaves at any path of the disk. */
  lemma ReplayGives(files: Files, ops: seq<Op>, now: Files, q: Path)
    requires Separate(ops) && AgreeOff(now, InstallAll(files, ops).files, Dsts(ops))
    ensures var end := UndoAll(now, InstallAll(files, ops).log);
      && (q in Dsts(ops) ==> At(end, q) == if q in files && Bak(q) in files then At(files, Bak(q)) else At(files, q))
      && (q in Dsts(ops) ==> At(end, Bak(q)) == if q !in files && Count(ops, q) == 1 then At(files, Bak(q)) else None)
      && (q !in Dsts(ops) && (forall d :: d in Dsts(ops) ==> q != Bak(d)) ==> At(end, q) == At(files, q))
  {
    if q in Dsts(ops) {
      SeparateIsApart(ops, q);
      BakOutside(ops, q);
      ReplayAt(files, ops, now, q);
    } else if forall d :: d in Dsts(ops) ==> q != Bak(d) {
      Elsewhere(files, ops, now, q);
    }
  }

  lemma BakOutside(ops: seq<Op>, d: Path)
    requires Separate(ops) && d in Dsts(ops)
    ensures Bak(d) !in Dsts(ops)
  {
    SeparateIsApart(ops, d);
  }

  /**
   The replay gives the original disk back, whatever the destinations hold or lack by
   then, exactly when the disk was restorable.
   */
  lemma ReplayRestoresExactlyWhen(files: Files, ops: seq<Op>, now: Files)
    requires Separate(ops) && AgreeOff(now, InstallAll(files, ops).files, Dsts(ops))
    ensures UndoAll(now, InstallAll(files, ops).log) == files <==> Restorable(files, ops)
  {
    var end := UndoAll(now, InstallAll(files, ops).log);
    if Restorable(files, ops) {
      forall q ensures At(end, q) == At(files, q) {
        ReplayGives(files, ops, now, q);
        if d :| d in Dsts(ops) && q == Bak(d) {
          ReplayGives(files, ops, now, d);
        }
      }
      SameFiles(end, files);
    } else {
      var d :| d in Dsts(ops) && Bak(d) in files && (d in files || Count(ops, d) != 1);
      ReplayGives(files, ops, now, d);
      assert At(end, Bak(d)) != At(files, Bak(d));
    }
  }

  lemma SameFiles(a: Files, b: Files)
    requires forall q :: At(a, q) == At(b, q)
    ensures a == b
  {
    forall q ensures (q in a <==> q in b) && (q in a ==> a[q] == b[q]) {
      assert At(a, q) == At(b, q);
    }
  }

  // ---- a replay cut short

  /**
   The disk on the way back: off the destinations and their backups as installed; at each
   destination the backup is untouched, or it has been put back, or, where nothing had
   been, both may be gone.
   */
  ghost predicate OnTheWayBack(files: Files, ops: seq<Op>, now: Files) {
    var s := InstallAll(files, ops);
    && (forall q :: q !in Dsts(ops) && (forall d :: d in Dsts(ops) ==> q != Bak(d)) ==> At(now, q) == At(s.files, q))
    && (forall d :: d in Dsts(ops) ==> SpotOnTheWay(SpotAt(files, d), SpotAt(s.files, d), SpotAt(now, d)))
  }

  predicate SpotOnTheWay(was: Spot, installed: Spot, now: Spot) {
    || now.backup == installed.backup
    || (was.backup.None? && now.backup.None? && (was.file.Some? ==> now.file == was.file))
  }

  lemma AgreeingIsOnTheWay(files: Files, ops: seq<Op>, now: Files)
    requires Separate(ops) && AgreeOff(now, InstallAll(files, ops).files, Dsts(ops))
    ensures OnTheWayBack(files, ops, now)
  {
    forall d | d in Dsts(ops) ensures Bak(d) !in Dsts(ops) { BakOutside(ops, d); }
  }

  /** What an entry of the log says of its destination's past. */
  lemma {:induction false} EntryIsOf(files: Files, ops: seq<Op>, e: Entry)
    requires Separate(ops) && e in InstallAll(files, ops).log
    ensures !e.Note? && e.path in Dsts(ops)
    ensures e.Created? ==> e.path !in files
    ensures e.Replaced? ==> e.backup == Bak(e.path) && (e.path in files || Count(ops, e.path) > 1)
  {
    var front := ops[..|ops| - 1];
    var op := ops[|ops| - 1];
    assert op.dst in Dsts(ops);
    if e in InstallAll(files, front).log {
      EntryIsOf(files, front, e);
    } else {
      SeparateIsApart(ops, op.dst);
      InstallAllAt(files, front, op.dst);
    }
  }

  /** Undoing any entry of the log, in whatever order, stays on the way. */
  lemma UndoStaysOnTheWay(files: Files, ops: seq<Op>, now: Files, e: Entry)
    requires Separate(ops) && Restorable(files, ops) && OnTheWayBack(files, ops, now)
    requires e in InstallAll(files, ops).log
    ensures OnTheWayBack(files, ops, Undo(now, e))
  {
    EntryIsOf(files, ops, e);
    var next := Undo(now, e);
    forall d | d in Dsts(ops)
      ensures SpotOnTheWay(SpotAt(files, d), SpotAt(InstallAll(files, ops).files, d), SpotAt(next, d)) {
      SeparateIsApart(ops, d);
      DstsApart(ops, d, e.path);
      UndoAt(now, e.path, d, e.Replaced?);
      InstallAllAt(files, ops, d);
    }
  }

  lemma DstsApart(ops: seq<Op>, d: Path, other: Path)
    requires ApartFrom(ops, d) && other in Dsts(ops)
    ensures Apart(d, other)
  {
    var op :| op in ops && op.dst == other;
  }

  /** What a replay makes of one destination on the way. */
  lemma SpotReplays(files: Files, ops: seq<Op>, now: Files, d: Path)
    requires Separate(ops) && Restorable(files, ops) && OnTheWayBack(files, ops, now) && d in Dsts(ops)
    ensures SpotAt(UndoAll(now, InstallAll(files, ops).log), d) == SpotAt(files, d)
  {
    SeparateIsApart(ops, d);
    InstallAllAt(files, ops, d);
    if At(now, Bak(d)) == At(InstallAll(files, ops).files, Bak(d)) {
      ReplayAt(files, ops, now, d);
    } else {
      ReplaySpent(files, ops, now, d);
    }
  }

  /** From anywhere on the way the whole log, replayed once more, gives the original disk. */
  lemma ReplayFromOnTheWay(files: Files, ops: seq<Op>, now: Files)
    requires Separate(ops) && Restorable(files, ops) && OnTheWayBack(files, ops, now)
    ensures UndoAll(now, InstallAll(files, ops).log) == files
  {
    var end := UndoAll(now, InstallAll(files, ops).log);
    forall q ensures At(end, q) == At(files, q) {
      if q in Dsts(ops) {
        SpotReplays(files, ops, now, q);
      } else if d :| d in Dsts(ops) && q == Bak(d) {
        SpotReplays(files, ops, now, d);
      } else {
        Elsewhere(files, ops, now, q);
      }
    }
    SameFiles(end, files);
  }

  // ---- a run cut short

  predicate Mentions(e: Entry, q: Path) {
    match e
    case Created(p) => p == q
    case Replaced(p, b) => p == q || b == q
    case Note(_) => false
  }

  lemma {:induction false} UndoFrames(now: Files, log: seq<Entry>, q: Path, f: File)
    requires forall e :: e in log ==> !Mentions(e, q)
    ensures UndoAll(now[q := f], log) == UndoAll(now, log)[q := f]
    decreases |log|
  {
    if log != [] {
      var e := log[|log| - 1];
      assert !Mentions(e, q);
      assert Undo(now[q := f], e) == Undo(now, e)[q := f];
      UndoFrames(Undo(now, e), log[..|log| - 1], q, f);
    }
  }

  lemma {:induction false} LoggedBackupsExist(files: Files, ops: seq<Op>, q: Path)
    requires q !in Dsts(ops) && Separate(ops)
    requires exists e :: e in InstallAll(files, ops).log && Mentions(e, q)
    ensures q in InstallAll(files, ops).files
  {
    var front := ops[..|ops| - 1];
    var op := ops[|ops| - 1];
    var e :| e in InstallAll(files, ops).log && Mentions(e, q);
    if e in InstallAll(files, front).log {
      LoggedBackupsExist(files, front, q);
    }
  }

  /**
   Cut short after the copy aside but before its log line: rolling back restores
   everything and leaves exactly that one copy, whole or partial, behind.
   */
  lemma CopyLeftBehind(files: Files, ops: seq<Op>, d: Path, copy: File)
    requires Separate(ops) && Restorable(files, ops)
    requires d in InstallAll(files, ops).files && Bak(d) !in InstallAll(files, ops).files && Bak(d) !in Dsts(ops)
    ensures UndoAll(InstallAll(files, ops).files[Bak(d) := copy], InstallAll(files, ops).log) == files[Bak(d) := copy]
  {
    var s := InstallAll(files, ops);
    forall e | e in s.log ensures !Mentions(e, Bak(d)) {
      if Mentions(e, Bak(d)) {
        LoggedBackupsExist(files, ops, Bak(d));
      }
    }
    UndoFrames(s.files, s.log, Bak(d), copy);
    ReplayRestoresExactlyWhen(files, ops, s.files);
  }

  /** Such a copy is never refreshed: a later install and its undoing put it over what the destination held. */
  lemma StaleCopyWins(files: Files, ops: seq<Op>, now: Files, d: Path)
    requires Separate(ops) && AgreeOff(now, InstallAll(files, ops).files, Dsts(ops))
    requires d in Dsts(ops) && d in files && Bak(d) in files
    ensures var end := UndoAll(now, InstallAll(files, ops).log);
      At(end, d) == At(files, Bak(d)) && Bak(d) !in end
  {
    ReplayGives(files, ops, now, d);
  }

  // ---- histories

  /** The disk and the state file, if a committed install has left one. */
  datatype Machine = Machine(files: Files, state: Option<seq<Entry>>)

  datatype Event =
    | Install(ops: seq<Op>, activation: seq<Entry>)   // to the end
    | FailInstall(ops: seq<Op>, left: Option<File>)   // a command failed while the last destination was written
    | Uninstall
    | CutRevert(entries: nat)                         // a revert or an uninstall cut off after so many entries
    | Edit(path: Path, now: Option<File>)             // by the administrator, or a package manager

  /** `revert_previous_install`, and the uninstaller with a state file. */
  function Reverted(m: Machine): Files {
    if m.state.Some? then UndoAll(m.files, m.state.value) else m.files
  }

  /** The last `n` entries of the state file undone; the file itself is removed only after the first. */
  function CutReplay(m: Machine, n: nat): Files {
    if m.state.Some? && n <= |m.state.value| then UndoAll(m.files, m.state.value[|m.state.value| - n..]) else m.files
  }

  function Cut(s: Disk, ops: seq<Op>, left: Option<File>): Files {
    if ops == [] then s.files else Holding(s.files, ops[|ops| - 1].dst, left)
  }

  function After(m: Machine, e: Event): Machine {
    match e
    case Install(ops, activation) =>
      var s := InstallAll(Reverted(m), ops);
      Machine(s.files, Some([Note("VERSION")] + s.log + activation))
    case FailInstall(ops, left) =>
      var s := InstallAll(Reverted(m), ops);
      Machine(UndoAll(Cut(s, ops, left), s.log), None)
    case Uninstall => Machine(Reverted(m), None)
    case CutRevert(n) => m.(files := CutReplay(m, n))
    case Edit(path, now) => m.(files := Holding(m.files, path, now))
  }

  function Run(m: Machine, events: seq<Event>): Machine {
    if events == [] then m else After(Run(m, events[..|events| - 1]), events[|events| - 1])
  }

  predicate OnlyNotes(log: seq<Entry>) {
    forall e :: e in log ==> e.Note?
  }

  /**
   Installs that could be undone from the original disk; edits only of what is installed
   at the time, so not of a path that a cut revert has put back already.
   */
  predicate Permitted(original: Files, m: Machine, e: Event) {
    match e
    case Install(ops, activation) => Separate(ops) && Restorable(original, ops) && OnlyNotes(activation)
    case FailInstall(ops, _) => Separate(ops) && Restorable(original, ops)
    case Uninstall => m.state.Some?
    case CutRevert(n) => m.state.Some? && n <= |m.state.value|
    case Edit(path, _) =>
      m.state.Some? && (Created(path) in m.state.value
        || (Replaced(path, Bak(path)) in m.state.value && Bak(path) in m.files))
  }

  predicate AllPermitted(original: Files, m: Machine, events: seq<Event>) {
    events == [] ||
    (AllPermitted(original, m, events[..|events| - 1])
     && Permitted(original, Run(m, events[..|events| - 1]), events[|events| - 1]))
  }

  /**
   The state file is the log of some restorable install of the original disk, and the disk is on the way back
   from it.
   */
  ghost predicate StateOf(original: Files, m: Machine, ops: seq<Op>, activation: seq<Entry>) {
    var s := InstallAll(original, ops);
    && Separate(ops) && Restorable(original, ops) && OnlyNotes(activation)
    && m.state == Some([Note("VERSION")] + s.log + activation)
    && OnTheWayBack(original, ops, m.files)
  }

  ghost predicate Tracked(original: Files, m: Machine) {
    if m.state.None? then m.files == original
    else exists ops, activation :: StateOf(original, m, ops, activation)
  }

  lemma {:induction false} NotesLast(files: Files, log: seq<Entry>, notes: seq<Entry>)
    requires OnlyNotes(notes)
    ensures UndoAll(files, log + notes) == UndoAll(files, log)
    decreases |notes|
  {
    if notes == [] {
      assert log + notes == log;
    } else {
      var front := notes[..|notes| - 1];
      assert log + notes == (log + front) + [notes[|notes| - 1]];
      UndoLast(files, log + front, notes[|notes| - 1]);
      assert notes[|notes| - 1] in notes;
      NotesLast(files, log, front);
    }
  }

  lemma {:induction false} NoteFirst(files: Files, note: Entry, log: seq<Entry>)
    requires note.Note?
    ensures UndoAll(files, [note] + log) == UndoAll(files, log)
    decreases |log|
  {
    if log == [] {
      assert [note] + log == [] + [note];
      UndoLast(files, [], note);
    } else {
      var front := log[..|log| - 1];
      assert [note] + log == ([note] + front) + [log[|log| - 1]];
      UndoLast(files, [note] + front, log[|log| - 1]);
      NoteFirst(Undo(files, log[|log| - 1]), note, front);
    }
  }

  /** Whatever has happened to the destinations since, reverting a tracked install gives the original disk. */
  lemma RevertGivesOriginal(original: Files, m: Machine)
    requires Tracked(original, m)
    ensures Reverted(m) == original
  {
    if m.state.Some? {
      var ops, activation :| StateOf(original, m, ops, activation);
      var log := InstallAll(original, ops).log;
      NotesLast(m.files, [Note("VERSION")] + log, activation);
      NoteFirst(m.files, Note("VERSION"), log);
      ReplayFromOnTheWay(original, ops, m.files);
    }
  }

  lemma HoldingAt(now: Files, path: Path, held: Option<File>, d: Path)
    requires Apart(d, path)
    ensures SpotAt(Holding(now, path, held), d) == if d == path then Spot(held, At(now, Bak(d))) else SpotAt(now, d)
  {
  }

  lemma EditStaysOnTheWay(files: Files, ops: seq<Op>, now: Files, path: Path, held: Option<File>)
    requires Separate(ops) && Restorable(files, ops) && OnTheWayBack(files, ops, now)
    requires path in Dsts(ops) && (path !in files || Bak(path) in now)
    ensures OnTheWayBack(files, ops, Holding(now, path, held))
  {
    var next, installed := Holding(now, path, held), InstallAll(files, ops).files;
    forall d | d in Dsts(ops) ensures SpotOnTheWay(SpotAt(files, d), SpotAt(installed, d), SpotAt(next, d)) {
      assert SpotOnTheWay(SpotAt(files, d), SpotAt(installed, d), SpotAt(now, d));
      EditedSpot(files, ops, d, path);
      HoldingAt(now, path, held, d);
    }
  }

  lemma EditedSpot(files: Files, ops: seq<Op>, d: Path, path: Path)
    requires Separate(ops) && d in Dsts(ops) && path in Dsts(ops)
    ensures Apart(d, path)
  {
    SeparateIsApart(ops, d);
    DstsApart(ops, d, path);
  }

  lemma EditKeepsTracked(original: Files, m: Machine, path: Path, now: Option<File>)
    requires Tracked(original, m) && Permitted(original, m, Edit(path, now))
    ensures Tracked(original, After(m, Edit(path, now)))
  {
    var ops, activation :| StateOf(original, m, ops, activation);
    var entry := if Created(path) in m.state.value then Created(path) else Replaced(path, Bak(path));
    assert entry in InstallAll(original, ops).log;
    EntryIsOf(original, ops, entry);
    EditStaysOnTheWay(original, ops, m.files, path, now);
    assert StateOf(original, After(m, Edit(path, now)), ops, activation);
  }

  /** What undoing any known entry keeps, undoing the tail of a log keeps. */
  lemma {:induction false} UndoTailKeeps(p: Files -> bool, known: set<Entry>, now: Files, log: seq<Entry>, k: nat)
    requires p(now) && forall f, e :: p(f) && e in known ==> p(Undo(f, e))
    requires k <= |log| && forall i :: 0 <= i < |log| ==> log[i] in known
    ensures p(UndoAll(now, log[k..]))
    decreases |log|
  {
    if k == |log| {
      assert log[k..] == [];
    } else {
      var e, front := log[|log| - 1], log[..|log| - 1];
      assert log[k..] == front[k..] + [e];
      UndoLast(now, front[k..], e);
      UndoTailKeeps(p, known, Undo(now, e), front, k);
    }
  }

  lemma EntryStaysOnTheWay(files: Files, ops: seq<Op>, now: Files, e: Entry)
    requires Separate(ops) && Restorable(files, ops) && OnTheWayBack(files, ops, now)
    requires e.Note? || e in InstallAll(files, ops).log
    ensures OnTheWayBack(files, ops, Undo(now, e))
  {
    if !e.Note? {
      UndoStaysOnTheWay(files, ops, now, e);
    }
  }

  lemma TailStaysOnTheWay(files: Files, ops: seq<Op>, now: Files, log: seq<Entry>, k: nat)
    requires Separate(ops) && Restorable(files, ops) && OnTheWayBack(files, ops, now) && k <= |log|
    requires forall i :: 0 <= i < |log| ==> log[i].Note? || log[i] in InstallAll(files, ops).log
    ensures OnTheWayBack(files, ops, UndoAll(now, log[k..]))
  {
    var p := f => OnTheWayBack(files, ops, f);
    var known := set e | e in log;
    forall f, e | p(f) && e in known ensures p(Undo(f, e)) { EntryStaysOnTheWay(files, ops, f, e); }
    UndoTailKeeps(p, known, now, log, k);
    assert p(UndoAll(now, log[k..]));
  }

  lemma StateNames(original: Files, m: Machine, ops: seq<Op>, activation: seq<Entry>)
    requires StateOf(original, m, ops, activation)
    ensures forall i :: 0 <= i < |m.state.value| ==>
      m.state.value[i].Note? || m.state.value[i] in InstallAll(original, ops).log
  {
  }

  lemma StateWith(original: Files, m: Machine, ops: seq<Op>, activation: seq<Entry>, files: Files)
    requires StateOf(original, m, ops, activation) && OnTheWayBack(original, ops, files)
    ensures Tracked(original, m.(files := files))
  {
    assert StateOf(original, m.(files := files), ops, activation);
  }

  lemma CutRevertKeepsTracked(original: Files, m: Machine, n: nat)
    requires Tracked(original, m) && m.state.Some? && n <= |m.state.value|
    ensures Tracked(original, After(m, CutRevert(n)))
  {
    hide InstallAll, UndoAll, OnTheWayBack, Restorable, Separate;
    var ops, activation :| StateOf(original, m, ops, activation);
    StateNames(original, m, ops, activation);
    TailStaysOnTheWay(original, ops, m.files, m.state.value, |m.state.value| - n);
    StateWith(original, m, ops, activation, CutReplay(m, n));
  }

  lemma InstallIsTracked(original: Files, ops: seq<Op>, activation: seq<Entry>)
    requires Separate(ops) && Restorable(original, ops) && OnlyNotes(activation)
    ensures Tracked(original, After(Machine(original, None), Install(ops, activation)))
  {
    AgreeingIsOnTheWay(original, ops, InstallAll(original, ops).files);
    assert StateOf(original, After(Machine(original, None), Install(ops, activation)), ops, activation);
  }

  lemma AfterKeepsTracked(original: Files, m: Machine, e: Event)
    requires Tracked(original, m) && Permitted(original, m, e)
    ensures Tracked(original, After(m, e))
  {
    match e
    case Install(ops, activation) =>
      RevertGivesOriginal(original, m);
      InstallIsTracked(original, ops, activation);
      assert After(m, e) == After(Machine(original, None), e);
    case FailInstall(ops, left) =>
      RevertGivesOriginal(original, m);
      CutRollsBack(original, ops, left);
    case Uninstall =>
      RevertGivesOriginal(original, m);
    case CutRevert(n) =>
      CutRevertKeepsTracked(original, m, n);
    case Edit(path, now) =>
      EditKeepsTracked(original, m, path, now);
  }

  /** A command that fails after its log line, with the destination whole, partial or missing: rolled back. */
  lemma CutRollsBack(files: Files, ops: seq<Op>, left: Option<File>)
    requires Separate(ops)
    ensures UndoAll(Cut(InstallAll(files, ops), ops, left), InstallAll(files, ops).log) == files
      <==> Restorable(files, ops)
  {
    var s := InstallAll(files, ops);
    if ops != [] {
      assert ops[|ops| - 1].dst in Dsts(ops);
    }
    assert AgreeOff(Cut(s, ops, left), s.files, Dsts(ops));
    ReplayRestoresExactlyWhen(files, ops, Cut(s, ops, left));
  }

  /**
   Any history of installs, reinstalls, failed installs, uninstalls, reverts cut off
   anywhere and changes to what is installed: without a state file the disk is the original one, and with one an
   uninstall makes it so.
   */
  lemma {:induction false} HistoriesAreUndone(original: Files, events: seq<Event>)
    requires AllPermitted(original, Machine(original, None), events)
    ensures var m := Run(Machine(original, None), events);
      Tracked(original, m) && After(m, Uninstall) == Machine(original, None) && (m.state.None? ==> m.files == original)
  {
    if events != [] {
      var front := events[..|events| - 1];
      HistoriesAreUndone(original, front);
      AfterKeepsTracked(original, Run(Machine(original, None), front), events[|events| - 1]);
    }
    RevertGivesOriginal(original, Run(Machine(original, None), events));
  }

  // ---- leaving through `error`

  /** `error` exits without raising the trap: the files stay, and the log is lost with the run. */
  function ErrorExit(m: Machine, ops: seq<Op>): Machine {
    Machine(InstallAll(Reverted(m), ops).files, None)
  }

  /** So a check that fails after the install leaves the original disk only if nothing had been installed. */
  lemma ErrorExitRestoresExactlyWhen(original: Files, m: Machine, ops: seq<Op>)
    requires Tracked(original, m) && Separate(ops) && Restorable(original, ops)
    ensures ErrorExit(m, ops) == Machine(original, None) <==> ops == []
  {
    RevertGivesOriginal(original, m);
    if ops != [] {
      var d := ops[|ops| - 1].dst;
      assert d in Dsts(ops);
      SeparateIsApart(ops, d);
      InstallAllAt(original, ops, d);
      var end := InstallAll(original, ops).files;
      assert SpotAt(end, d) != SpotAt(original, d);
    }
  }

  lemma InstallThenUninstall(files: Files, ops: seq<Op>)
    ensures After(After(Machine(files, None), Install(ops, [])), Uninstall).files ==
      UndoAll(InstallAll(files, ops).files, InstallAll(files, ops).log)
  {
    hide InstallAll, UndoAll;
    var s := InstallAll(files, ops);
    NotesLast(s.files, [Note("VERSION")] + s.log, []);
    NoteFirst(s.files, Note("VERSION"), s.log);
  }

  /**
   And after a later install of the same destinations the uninstaller brings back what
   had been there, but for a path that did not exist it keeps the first run's file.
   */
  lemma ErrorExitLeftovers(original: Files, ops: seq<Op>, again: seq<Op>, d: Path)
    requires Separate(ops) && Restorable(original, ops) && Separate(again)
    requires d in Dsts(ops) && d in Dsts(again) && Count(ops, d) == 1
    ensures var first := ErrorExit(Machine(original, None), ops);
      var end := After(After(first, Install(again, [])), Uninstall).files;
      && (d in original ==> At(end, d) == At(original, d))
      && (d !in original && Bak(d) !in original ==> d in end && At(end, d) == At(first.files, d))
  {
    hide InstallAll, UndoAll, Separate;
    var first := InstallAll(original, ops).files;
    SeparateIsApart(ops, d);
    InstallAllAt(original, ops, d);
    InstallThenUninstall(first, again);
    ReplayGives(first, again, InstallAll(first, again).files, d);
  }

  // ---- the uninstaller without a state file

  function FallbackOwned(files: Files, p: Path): Files {
    if p !in files then files
    else if Bak(p) in files then Moved(files, Bak(p), p)
    else files - {p}
  }

  /** A distribution's own stack is restored or stripped of the line, never removed. */
  function FallbackShared(files: Files, p: Path): Files {
    if p !in files then files
    else if Bak(p) in files then Moved(files, Bak(p), p)
    else if PamStack.NoSentinel(files[p].lines) then files
    else files[p := files[p].(lines := PamStack.Stripped(files[p].lines))]
  }

  function FallbackAll(files: Files, owned: seq<Path>, shared: seq<Path>): Files
    decreases |owned| + |shared|
  {
    if shared != [] then FallbackShared(FallbackAll(files, owned, shared[..|shared| - 1]), shared[|shared| - 1])
    else if owned != [] then FallbackOwned(FallbackAll(files, owned[..|owned| - 1], []), owned[|owned| - 1])
    else files
  }

  function OwnedSpot(s: Spot): Spot {
    if s.file.None? then s else if s.backup.Some? then Spot(s.backup, None) else Spot(None, None)
  }

  function SharedSpot(s: Spot): Spot {
    if s.file.None? then s
    else if s.backup.Some? then Spot(s.backup, None)
    else if PamStack.NoSentinel(s.file.value.lines) then s
    else Spot(Some(s.file.value.(lines := PamStack.Stripped(s.file.value.lines))), None)
  }

  /** The two lists name no path twice, and none that is another's backup. */
  predicate Tidy(owned: seq<Path>, shared: seq<Path>) {
    && (forall i, j :: 0 <= i < j < |owned| ==> owned[i] != owned[j])
    && (forall i, j :: 0 <= i < j < |shared| ==> shared[i] != shared[j])
    && (forall i, j :: 0 <= i < |owned| && 0 <= j < |shared| ==> owned[i] != shared[j])
  }

  predicate ApartFromAll(ps: seq<Path>, d: Path) {
    forall i :: 0 <= i < |ps| ==> Apart(d, ps[i])
  }

  lemma FallbackOneAt(files: Files, p: Path, d: Path)
    requires Apart(d, p)
    ensures SpotAt(FallbackOwned(files, p), d) == if d == p then OwnedSpot(SpotAt(files, d)) else SpotAt(files, d)
    ensures SpotAt(FallbackShared(files, p), d) == if d == p then SharedSpot(SpotAt(files, d)) else SpotAt(files, d)
  {
    if d != p && Bak(d) == Bak(p) {
      BakInjective(d, p);
    }
  }

  lemma {:induction false} FallbackAt(files: Files, owned: seq<Path>, shared: seq<Path>, d: Path)
    requires Tidy(owned, shared) && ApartFromAll(owned, d) && ApartFromAll(shared, d)
    ensures SpotAt(FallbackAll(files, owned, shared), d) ==
      if d in owned then OwnedSpot(SpotAt(files, d))
      else if d in shared then SharedSpot(SpotAt(files, d))
      else SpotAt(files, d)
    decreases |owned| + |shared|
  {
    if shared != [] {
      var front, p := shared[..|shared| - 1], shared[|shared| - 1];
      FallbackAt(files, owned, front, d);
      FallbackOneAt(FallbackAll(files, owned, front), p, d);
      assert d in shared <==> d in front || d == p;
    } else if owned != [] {
      var front, p := owned[..|owned| - 1], owned[|owned| - 1];
      FallbackAt(files, front, [], d);
      FallbackOneAt(FallbackAll(files, front, []), p, d);
      assert d in owned <==> d in front || d == p;
    }
  }

  /**
   With the state file lost, a destination that is still there goes back to what it was
   exactly when it existed before, or is Sentinel's own, was installed once and had no
   stale backup. A PAM stack that had not existed stays, without the line.
   */
  lemma FallbackAfterLoss(original: Files, ops: seq<Op>, now: Files, owned: seq<Path>, shared: seq<Path>, d: Path)
    requires Tidy(owned, shared) && ApartFromAll(owned, d) && ApartFromAll(shared, d)
    requires Separate(ops) && Restorable(original, ops)
    requires AgreeOff(now, InstallAll(original, ops).files, Dsts(ops))
    requires d in Dsts(ops) && d in now && (d in owned || d in shared)
    ensures SpotAt(FallbackAll(now, owned, shared), d) == SpotAt(original, d) <==>
      d in original || (d in owned && Count(ops, d) == 1 && Bak(d) !in original)
    ensures d in shared && d !in original && Count(ops, d) == 1 && Bak(d) !in original ==>
      At(FallbackAll(now, owned, shared), d) == Some(now[d].(lines := PamStack.Stripped(now[d].lines)))
  {
    SeparateIsApart(ops, d);
    BakOutside(ops, d);
    InstallAllAt(original, ops, d);
    FallbackAt(now, owned, shared, d);
    assert At(now, Bak(d)) == At(InstallAll(original, ops).files, Bak(d));
    SecondInstallIsBackedUp(original, ops, d);
    if PamStack.NoSentinel(now[d].lines) {
      PamStack.StripNothing(now[d].lines);
    }
  }

  /** A path that did not exist, installed twice, has a backup of the first install. */
  lemma {:induction false} SecondInstallIsBackedUp(files: Files, ops: seq<Op>, d: Path)
    requires ApartFrom(ops, d)
    ensures Count(ops, d) > 1 ==> Bak(d) in InstallAll(files, ops).files
  {
    if ops != [] {
      var front := ops[..|ops| - 1];
      SecondInstallIsBackedUp(files, front, d);
      InstallAllAt(files, front, d);
      InstallOneAt(InstallAll(files, front), ops[|ops| - 1], d);
    }
  }

  /** So a PAM shadow created from a vendor stack ends as a copy of that stack. */
  lemma ShadowBecomesVendorStack(
      original: Files, ops: seq<Op>, now: Files, owned: seq<Path>, shared: seq<Path>, d: Path, base: seq<PamStack.Line>)
    requires Tidy(owned, shared) && ApartFromAll(owned, d) && ApartFromAll(shared, d)
    requires Separate(ops) && Restorable(original, ops)
    requires AgreeOff(now, InstallAll(original, ops).files, Dsts(ops))
    requires d in Dsts(ops) && d in now && d in shared && d !in original && Count(ops, d) == 1 && Bak(d) !in original
    requires PamStack.BeforeAnchor(base) < |base| && PamStack.NoSentinel(base)
    requires Some(now[d].lines) == PamStack.Wired(base)
    ensures At(FallbackAll(now, owned, shared), d) == Some(File(base, now[d].mode))
  {
    FallbackAfterLoss(original, ops, now, owned, shared, d);
    PamStack.WiringIsReversible(base);
  }

  // ---- wiring a service on disk

  /** Mode 0644. */
  const PAM_MODE: nat := 420

  /** The first candidate that exists. */
  function FindBase(files: Files, candidates: seq<Path>): (r: Option<Path>)
    ensures r.Some? ==> exists k ::
      && 0 <= k < |candidates| && candidates[k] == r.value && r.value in files
      && forall j :: 0 <= j < k ==> candidates[j] !in files
    ensures r.None? <==> forall c :: c in candidates ==> c !in files
  {
    if candidates == [] then None
    else if candidates[0] in files then Some(candidates[0])
    else
      var r := FindBase(files, candidates[1..]);
      assert forall k :: 0 < k < |candidates| ==> candidates[k] == candidates[1..][k - 1];
      r
  }

  /** The stack a service is wired from: the first of its candidates that exists, whatever else there is. */
  lemma FirstFoundWins(files: Files, candidates: seq<Path>, k: nat)
    requires k < |candidates| && candidates[k] in files && forall j :: 0 <= j < k ==> candidates[j] !in files
    ensures FindBase(files, candidates) == Some(candidates[k])
  {
    var r := FindBase(files, candidates);
    assert candidates[k] in candidates;
  }

  /**
   The service is wired from the first of its stacks that exists, be it its own under
   /etc or the vendor's: without the new line the target holds just that one's lines, it
   has the mode of a configuration file, and nothing but target and backup has moved.
   */
  lemma WiredFromTheFirst(s: Disk, candidates: seq<Path>, target: Path, k: nat)
    requires k < |candidates| && candidates[k] in s.files && forall j :: 0 <= j < k ==> candidates[j] !in s.files
    requires target in s.files ==> PamStack.NoSentinel(s.files[target].lines)
    requires var base := s.files[candidates[k]].lines;
      PamStack.NoSentinel(base) && exists i :: 0 <= i < |base| && PamStack.IsAnchor(base[i])
    ensures WiredDisk(s, candidates, target).Some?
    ensures var t := WiredDisk(s, candidates, target).value.files;
      && target in t && PamStack.Stripped(t[target].lines) == s.files[candidates[k]].lines
      && t[target].lines != s.files[candidates[k]].lines && t[target].mode == 0x1A4
      && (target in s.files && Bak(target) !in s.files ==> At(t, Bak(target)) == At(s.files, target))
      && forall q :: q != target && q != Bak(target) ==> At(t, q) == At(s.files, q)
  {
    var base := s.files[candidates[k]].lines;
    FirstFoundWins(s.files, candidates, k);
    PamStack.WiringIsReversible(base);
    var lines := PamStack.Wired(base).value;
    InstallOneAt(s, Op(target, File(lines, PAM_MODE)), target);
  }

  /** A service that has the line already, or no stack at all, is left as it is. */
  lemma WiredAlready(s: Disk, candidates: seq<Path>, target: Path)
    requires (forall c :: c in candidates ==> c !in s.files)
      || (target in s.files && !PamStack.NoSentinel(s.files[target].lines))
    ensures WiredDisk(s, candidates, target) == Some(s)
  {
  }

  /** None when the rewrite fails, which ends the run. */
  function WiredDisk(s: Disk, candidates: seq<Path>, target: Path): Option<Disk> {
    var base := FindBase(s.files, candidates);
    if base.None? then Some(s)
    else if target in s.files && !PamStack.NoSentinel(s.files[target].lines) then Some(s)
    else
      var lines := PamStack.Wired(s.files[base.value].lines);
      if lines.None? then None else Some(InstallOne(s, Op(target, File(lines.value, PAM_MODE))))
  }

  /** Wiring a service a second time changes nothing on disk and logs nothing. */
  lemma WiringIsIdempotent(s: Disk, candidates: seq<Path>, target: Path)
    requires WiredDisk(s, candidates, target).Some?
    ensures var once := WiredDisk(s, candidates, target).value;
      WiredDisk(once, candidates, target) == Some(once)
  {
    var base := FindBase(s.files, candidates);
    if base.Some? {
      PamStack.WiredMentionsSentinel(s.files[base.value].lines);
    }
  }

  // ---- the scripts

  class Scripts {
    var files: Files
    var rollbackLog: seq<Entry>
    var stateTmp: seq<Entry>
    var stateFile: Option<seq<Entry>>

    ghost function View(): Machine
      reads this
    {
      Machine(files, stateFile)
    }

    constructor (files: Files, stateFile: Option<seq<Entry>>)
      ensures View() == Machine(files, stateFile) && rollbackLog == [] && stateTmp == []
    {
      this.files, this.stateFile := files, stateFile;
      rollbackLog, stateTmp := [], [];
    }

    method InstallFile(op: Op)
      modifies `files, `rollbackLog, `stateTmp
      ensures Disk(files, rollbackLog) == InstallOne(Disk(old(files), old(rollbackLog)), op)
      ensures stateTmp == old(stateTmp) + [EntryFor(old(files), op.dst)]
    {
      LogInstall(op.dst);
      files := files[op.dst := op.file];
    }

    /** `install_file` up to the log lines: the copy aside, then the entry in both logs. */
    method LogInstall(dst: Path)
      modifies `files, `rollbackLog, `stateTmp
      ensures files == BackedUp(old(files), dst)
      ensures rollbackLog == old(rollbackLog) + [EntryFor(old(files), dst)]
      ensures stateTmp == old(stateTmp) + [EntryFor(old(files), dst)]
    {
      var entry := Created(dst);
      if dst in files {
        var backup := Bak(dst);
        if backup !in files {
          files := files[backup := files[dst]];
        }
        entry := Replaced(dst, backup);
      }
      rollbackLog := rollbackLog + [entry];
      stateTmp := stateTmp + [entry];
    }

    /** `tac … | while read`. */
    method Replay(log: seq<Entry>)
      modifies `files
      ensures files == UndoAll(old(files), log)
    {
      var i := |log|;
      assert log[..i] == log;
      while i > 0
        invariant 0 <= i <= |log|
        invariant UndoAll(files, log[..i]) == UndoAll(old(files), log)
      {
        i := i - 1;
        assert log[..i + 1] == log[..i] + [log[i]];
        UndoLast(files, log[..i], log[i]);
        match log[i]
        case Created(path) => files := files - {path};
        case Replaced(path, backup) =>
          if backup in files {
            var saved := files[backup];
            files := files - {backup};
            files := files[path := saved];
          }
        case Note(_) =>
      }
      assert log[..0] == [];
    }

    method Rollback()
      modifies this
      ensures files == UndoAll(old(files), old(rollbackLog))
      ensures rollbackLog == [] && stateTmp == [] && stateFile == old(stateFile)
    {
      Replay(rollbackLog);
      rollbackLog, stateTmp := [], [];
    }

    method RevertPreviousInstall()
      modifies `files, `stateFile
      ensures View() == Machine(Reverted(old(View())), None)
    {
      if stateFile.Some? {
        Replay(stateFile.value);
        stateFile := None;
      }
    }

    /** A revert or an uninstall that is cut off after `n` entries. */
    method RevertCutOff(n: nat)
      requires stateFile.Some? && n <= |stateFile.value|
      modifies `files
      ensures View() == After(old(View()), CutRevert(n))
    {
      Replay(stateFile.value[|stateFile.value| - n..]);
    }

    method InstallFiles(ops: seq<Op>)
      modifies `files, `rollbackLog, `stateTmp
      ensures var s := InstallAll(old(files), ops);
        files == s.files && rollbackLog == old(rollbackLog) + s.log && stateTmp == old(stateTmp) + s.log
    {
      assert ops[..0] == [];
      for i := 0 to |ops|
        invariant Disk(files, rollbackLog)
          == Disk(InstallAll(old(files), ops[..i]).files, old(rollbackLog) + InstallAll(old(files), ops[..i]).log)
        invariant stateTmp == old(stateTmp) + InstallAll(old(files), ops[..i]).log
      {
        assert ops[..i + 1][..i] == ops[..i];
        InstallFile(ops[i]);
      }
      assert ops[..|ops|] == ops;
    }

    /** A run to the end: revert, install, commit, activate. */
    method InstallRun(ops: seq<Op>, activation: seq<Entry>)
      requires rollbackLog == [] && stateTmp == []
      modifies this
      ensures View() == After(old(View()), Install(ops, activation)) && rollbackLog == [] && stateTmp == []
    {
      RevertPreviousInstall();
      stateTmp := [Note("VERSION")];
      InstallFiles(ops);
      stateFile := Some(stateTmp);
      stateTmp, rollbackLog := [], [];
      stateFile := Some(stateFile.value + activation);
    }

    /** A run that ends in `error` after the files are in place: no trap, no state file. */
    method ErrorRun(ops: seq<Op>)
      requires rollbackLog == [] && stateTmp == []
      modifies this
      ensures View() == ErrorExit(old(View()), ops)
    {
      RevertPreviousInstall();
      stateTmp := [Note("VERSION")];
      InstallFiles(ops);
    }

    /** All of the installs but the last one's write, which leaves `left` at its destination. */
    method InstallFilesButFail(ops: seq<Op>, left: Option<File>)
      requires rollbackLog == []
      modifies `files, `rollbackLog, `stateTmp
      ensures files == Cut(InstallAll(old(files), ops), ops, left)
      ensures rollbackLog == InstallAll(old(files), ops).log
    {
      if ops != [] {
        var last := ops[|ops| - 1];
        InstallFiles(ops[..|ops| - 1]);
        ghost var front := files;
        LogInstall(last.dst);
        assert BackedUp(front, last.dst) - {last.dst} == BackedUp(front, last.dst)[last.dst := last.file] - {last.dst};
        files := Holding(files, last.dst, left);
      }
    }

    /** A run in which writing the last destination fails; the trap rolls back. */
    method FailingRun(ops: seq<Op>, left: Option<File>)
      requires rollbackLog == [] && stateTmp == []
      modifies this
      ensures View() == After(old(View()), FailInstall(ops, left)) && rollbackLog == [] && stateTmp == []
    {
      RevertPreviousInstall();
      stateTmp := [Note("VERSION")];
      InstallFilesButFail(ops, left);
      Rollback();
    }

    method WirePamService(candidates: seq<Path>, target: Path) returns (ok: bool)
      modifies `files, `rollbackLog, `stateTmp
      ensures var wired := WiredDisk(Disk(old(files), old(rollbackLog)), candidates, target);
        ok == wired.Some? && Disk(files, rollbackLog) == if ok then wired.value else Disk(old(files), old(rollbackLog))
      ensures old(rollbackLog) <= rollbackLog && stateTmp == old(stateTmp) + rollbackLog[|old(rollbackLog)|..]
    {
      var i := 0;
      while i < |candidates| && candidates[i] !in files
        invariant i <= |candidates| && FindBase(files, candidates) == FindBase(files, candidates[i..])
      {
        i := i + 1;
      }
      if i == |candidates| { return true; }
      if target in files && !PamStack.NoSentinel(files[target].lines) { return true; }
      var lines := PamStack.WireLines(files[candidates[i]].lines);
      if lines.None? { return false; }
      InstallFile(Op(target, File(lines.value, PAM_MODE)));
      return true;
    }

    method UninstallRun(owned: seq<Path>, shared: seq<Path>)
      modifies `files, `stateFile
      ensures old(stateFile).Some? ==> View() == After(old(View()), Uninstall)
      ensures old(stateFile).None? ==> View() == Machine(FallbackAll(old(files), owned, shared), None)
    {
      if stateFile.Some? {
        Replay(stateFile.value);
        stateFile := None;
        return;
      }
      assert owned[..0] == [];
      for i := 0 to |owned|
        invariant View() == Machine(FallbackAll(old(files), owned[..i], []), None)
      {
        assert owned[..i + 1][..i] == owned[..i];
        var p := owned[i];
        if p in files {
          if Bak(p) in files {
            files := Moved(files, Bak(p), p);
          } else {
            files := files - {p};
          }
        }
      }
      assert owned[..|owned|] == owned && shared[..0] == [];
      for i := 0 to |shared|
        invariant View() == Machine(FallbackAll(old(files), owned, shared[..i]), None)
      {
        assert shared[..i + 1][..i] == shared[..i];
        var p := shared[i];
        if p in files {
          if Bak(p) in files {
            files := Moved(files, Bak(p), p);
          } else if !PamStack.NoSentinel(files[p].lines) {
            files := files[p := files[p].(lines := PamStack.Stripped(files[p].lines))];
          }
        }
      }
      assert shared[..|shared|] == shared;
    }
  }
}
