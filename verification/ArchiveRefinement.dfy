/**
  The store used by one caller, module LogArchive, is the store shared by threads, module
  ArchiveExport, taken one write at a time: each of its writes is a sequence of steps that a
  single thread can take from any state in which the locks are free.
 */
module ArchiveRefinement {
  import opened Optional
  import opened Records
  import opened Pruning
  import L = LogArchive
  import A = ArchiveExport

  /** The directory as a map from names to bytes. */
  function FilesOf(dir: Directory): map<Name, Bytes> {
    if dir == [] then map[] else FilesOf(dir[1..])[dir[0].name := dir[0].data]
  }

  /** The same files, the same open file and the same flags. */
  ghost predicate Matches(a: L.Archive, d: A.Shared) {
    && d.dir == FilesOf(a.dir)
    && d.file == (if a.open then Some(a.currentPath) else None)
    && d.closed == a.closed && d.writeDisabled == a.writeDisabled
  }

  const FREE := A.Locks({}, None, None)

  // -------------------------------------------------------- files and their map

  lemma {:induction false} FilesNamed(dir: Directory, name: Name)
    ensures name in FilesOf(dir) <==> !Unnamed(dir, name)
  {
    if dir != [] {
      assert dir == [dir[0]] + dir[1..];
      FilesNamed(dir[1..], name);
    }
  }

  lemma {:induction false} FilesAt(dir: Directory, f: LogFile)
    requires DistinctNames(dir) && f in dir
    ensures f.name in FilesOf(dir) && FilesOf(dir)[f.name] == f.data
  {
    assert dir == [dir[0]] + dir[1..];
    if f != dir[0] {
      FilesAt(dir[1..], f);
    }
  }

  lemma {:induction false} FilesSnoc(dir: Directory, f: LogFile)
    requires Unnamed(dir, f.name)
    ensures FilesOf(dir + [f]) == FilesOf(dir)[f.name := f.data]
  {
    if dir == [] {
      assert dir + [f] == [f];
      assert [f][1..] == [];
    } else {
      assert dir == [dir[0]] + dir[1..];
      assert (dir + [f])[1..] == dir[1..] + [f];
      FilesSnoc(dir[1..], f);
    }
  }

  lemma {:induction false} FilesAppend(dir: Directory, name: Name, bytes: Bytes, stamp: int)
    requires DistinctNames(dir) && !Unnamed(dir, name)
    ensures name in FilesOf(dir)
    ensures FilesOf(L.Append(dir, name, bytes, stamp)) == FilesOf(dir)[name := FilesOf(dir)[name] + bytes]
  {
    assert dir == [dir[0]] + dir[1..];
    FilesNamed(dir, name);
    if dir[0].name == name {
      assert L.Append(dir, name, bytes, stamp)[1..] == dir[1..];
    } else {
      FilesAppend(dir[1..], name, bytes, stamp);
      assert L.Append(dir, name, bytes, stamp)[1..] == L.Append(dir[1..], name, bytes, stamp);
    }
  }

  /** What cleanup has removed. */
  function Gone(dir: Directory, left: Directory): set<Name> { FilesOf(dir).Keys - FilesOf(left).Keys }

  lemma FilesShrunk(dir: Directory, left: Directory, current: Name)
    requires DistinctNames(dir) && Shrunk(left, dir, current)
    ensures FilesOf(left) == FilesOf(dir) - Gone(dir, left)
    ensures !Unnamed(dir, current) ==> current !in Gone(dir, left)
  {
    forall n | n in FilesOf(left) ensures n in FilesOf(dir) && FilesOf(left)[n] == FilesOf(dir)[n] {
      FilesNamed(left, n);
      var f :| f in left && f.name == n;
      FilesAt(left, f);
      FilesAt(dir, f);
    }
    if !Unnamed(dir, current) {
      var f :| f in dir && f.name == current;
      FilesAt(left, f);
    }
  }

  // --------------------------------------------------- steps of a single thread

  /** What a thread reaches by taking the labelled steps one after the other. */
  function Alone(m: A.Move, t: A.Tid, labels: seq<A.Label>): Option<A.Move> {
    if labels == [] then Some(m)
    else
      var v, l := Alone(m, t, labels[..|labels| - 1]), labels[|labels| - 1];
      if v.Some? && l.t == t && A.CanMove(v.value.d, v.value.k, v.value.q, l)
      then Some(A.Moved(v.value.d, v.value.k, v.value.q, l)) else None
  }

  lemma OneMore(m: A.Move, t: A.Tid, labels: seq<A.Label>, v: A.Move, l: A.Label)
    requires Alone(m, t, labels) == Some(v) && l.t == t && A.CanMove(v.d, v.k, v.q, l)
    ensures Alone(m, t, labels + [l]) == Some(A.Moved(v.d, v.k, v.q, l))
  {
    assert (labels + [l])[..|labels|] == labels;
  }

  lemma {:induction false} AloneThen(m: A.Move, t: A.Tid, a: seq<A.Label>, v: A.Move, b: seq<A.Label>)
    requires Alone(m, t, a) == Some(v)
    ensures Alone(m, t, a + b) == Alone(v, t, b)
  {
    if b == [] {
      assert a + b == a;
    } else {
      AloneThen(m, t, a, v, b[..|b| - 1]);
      assert (a + b)[..|a + b| - 1] == a + b[..|b| - 1];
    }
  }

  /** Inside Write, with mu. */
  function Inside(t: A.Tid): A.Locks { A.Locks({t}, None, Some(t)) }

  lemma Enter(d: A.Shared, t: A.Tid, data: Bytes)
    ensures Alone(A.Move(d, FREE, A.WriteStart(data)), t, [A.LockShared(t), A.LockMu(t)]) ==
            Some(A.Move(d, Inside(t), A.WriteInside(data)))
  {
    var m := A.Move(d, FREE, A.WriteStart(data));
    var v := A.Move(d, A.Locks({t}, None, None), A.WriteShared(data));
    assert FREE.readers + {t} == {t};
    OneMore(m, t, [], m, A.LockShared(t));
    OneMore(m, t, [A.LockShared(t)], v, A.LockMu(t));
    assert [] + [A.LockShared(t)] == [A.LockShared(t)];
    assert [A.LockShared(t)] + [A.LockMu(t)] == [A.LockShared(t), A.LockMu(t)];
  }

  lemma Leave(d: A.Shared, t: A.Tid, cleanup: bool)
    ensures Alone(A.Move(d, Inside(t), A.WriteLeaving(cleanup)), t, [A.UnlockWrite(t), A.UnlockShared(t)]) ==
            Some(A.Move(d, FREE, if cleanup then A.CleanStart else A.Done))
  {
    var m := A.Move(d, Inside(t), A.WriteLeaving(cleanup));
    var v := A.Move(d, A.Locks({t}, None, None), A.WriteUnlocked(cleanup));
    assert {t} - {t} == {};
    OneMore(m, t, [], m, A.UnlockWrite(t));
    OneMore(m, t, [A.UnlockWrite(t)], v, A.UnlockShared(t));
    assert [] + [A.UnlockWrite(t)] == [A.UnlockWrite(t)];
    assert [A.UnlockWrite(t)] + [A.UnlockShared(t)] == [A.UnlockWrite(t), A.UnlockShared(t)];
  }

  /** With the exclusive lock. */
  function Exclusive(t: A.Tid, mu: bool): A.Locks { A.Locks({}, Some(t), if mu then Some(t) else None) }

  lemma Seize(d: A.Shared, t: A.Tid, q: A.Thread)
    requires q == A.CleanStart || q == A.ShutStart(false)
    ensures Alone(A.Move(d, FREE, q), t, [A.Claim(t), A.Hold(t), A.LockMu(t)]) ==
            Some(A.Move(d, Exclusive(t, true), if q.CleanStart? then A.CleanPeek else A.ShutInside(false)))
  {
    var m := A.Move(d, FREE, q);
    var claimed := A.Move(d, Exclusive(t, false), if q.CleanStart? then A.CleanClaimed else A.ShutClaimed(false));
    var held := A.Move(d, Exclusive(t, false), if q.CleanStart? then A.CleanHeld else A.ShutHeld(false));
    OneMore(m, t, [], m, A.Claim(t));
    assert [] + [A.Claim(t)] == [A.Claim(t)];
    OneMore(m, t, [A.Claim(t)], claimed, A.Hold(t));
    assert [A.Claim(t)] + [A.Hold(t)] == [A.Claim(t), A.Hold(t)];
    OneMore(m, t, [A.Claim(t), A.Hold(t)], held, A.LockMu(t));
    assert [A.Claim(t), A.Hold(t)] + [A.LockMu(t)] == [A.Claim(t), A.Hold(t), A.LockMu(t)];
  }

  /** disableWrites. */
  lemma ShutOff(d: A.Shared, t: A.Tid) returns (labels: seq<A.Label>)
    requires !d.closed
    ensures Alone(A.Move(d, FREE, A.ShutStart(false)), t, labels) ==
            Some(A.Move(d.(writeDisabled := true, file := None), FREE, A.Done))
  {
    var m, e := A.Move(d, FREE, A.ShutStart(false)), d.(writeDisabled := true, file := None);
    labels := [A.Claim(t), A.Hold(t), A.LockMu(t)];
    Seize(d, t, A.ShutStart(false));
    OneMore(m, t, labels, A.Move(d, Exclusive(t, true), A.ShutInside(false)), A.Shut(t));
    labels := labels + [A.Shut(t)];
    OneMore(m, t, labels, A.Move(e, Exclusive(t, false), A.ShutLeaving), A.UnlockExclusive(t, false));
    labels := labels + [A.UnlockExclusive(t, false)];
  }

  function Cleared(d: A.Shared, names: set<Name>): A.Shared { d.(dir := d.dir - names, removed := d.removed + names) }

  /** The removals of a cleanup, one at a time. */
  lemma {:induction false} RemoveAll(d: A.Shared, t: A.Tid, current: Option<Name>, names: set<Name>) returns (labels: seq<A.Label>)
    requires names <= d.dir.Keys && (current.Some? ==> current.value !in names)
    ensures Alone(A.Move(d, Exclusive(t, false), A.CleanPruning(current)), t, labels) ==
            Some(A.Move(Cleared(d, names), Exclusive(t, false), A.CleanPruning(current)))
    decreases names
  {
    var m := A.Move(d, Exclusive(t, false), A.CleanPruning(current));
    if names == {} {
      labels := [];
      assert d.dir - {} == d.dir && d.removed + {} == d.removed;
    } else {
      var n :| n in names;
      var e := Cleared(d, names - {n});
      labels := RemoveAll(d, t, current, names - {n});
      OneMore(m, t, labels, A.Move(e, Exclusive(t, false), A.CleanPruning(current)), A.Remove(t, n));
      labels := labels + [A.Remove(t, n)];
      assert e.dir - {n} == d.dir - names && e.removed + {n} == d.removed + names;
    }
  }

  /** cleanup, followed by disableWrites when it fails. */
  lemma CleanUp(d: A.Shared, t: A.Tid, names: set<Name>, failed: bool) returns (labels: seq<A.Label>)
    requires names <= d.dir.Keys && (d.file.Some? ==> d.file.value !in names) && !d.closed
    ensures var e := Cleared(d, names);
      Alone(A.Move(d, FREE, A.CleanStart), t, labels) ==
        Some(A.Move(if failed then e.(writeDisabled := true, file := None) else e, FREE, A.Done))
  {
    var m, e := A.Move(d, FREE, A.CleanStart), Cleared(d, names);
    labels := [A.Claim(t), A.Hold(t), A.LockMu(t)];
    Seize(d, t, A.CleanStart);
    OneMore(m, t, labels, A.Move(d, Exclusive(t, true), A.CleanPeek), A.Peek(t));
    labels := labels + [A.Peek(t)];
    var pruning := A.Move(d, Exclusive(t, false), A.CleanPruning(d.file));
    var removals := RemoveAll(d, t, d.file, names);
    AloneThen(m, t, labels, pruning, removals);
    labels := labels + removals;
    OneMore(m, t, labels, A.Move(e, Exclusive(t, false), A.CleanPruning(d.file)), A.UnlockExclusive(t, failed));
    labels := labels + [A.UnlockExclusive(t, failed)];
    if failed {
      var off := ShutOff(e, t);
      AloneThen(m, t, labels, A.Move(e, FREE, A.ShutStart(false)), off);
      labels := labels + off;
    }
  }

  // ------------------------------------------------------------- one write

  /** A write that ends with these fields, its record's fate decided. */
  ghost predicate Ends(d: A.Shared, t: A.Tid, data: Bytes, labels: seq<A.Label>, a: L.Archive, e: A.Shared) {
    && Alone(A.Move(d, FREE, A.WriteStart(data)), t, labels) == Some(A.Move(e, FREE, A.Done))
    && Matches(a, e)
    && |e.log| == |d.log| + 1 && d.log <= e.log && e.log[|d.log|].data == data
  }

  /** The file is chosen: the part of a write up to the append. */
  ghost predicate Ready(d: A.Shared, t: A.Tid, data: Bytes, labels: seq<A.Label>, a: L.Archive, e: A.Shared) {
    && Alone(A.Move(d, FREE, A.WriteStart(data)), t, labels) == Some(A.Move(e, Inside(t), A.WriteReady(data)))
    && Matches(a, e) && e.log == d.log
  }

  /** A write whose fate is decided before it could append only has to leave. */
  lemma LeaveEarly(d: A.Shared, t: A.Tid, data: Bytes, labels: seq<A.Label>, a: L.Archive, e: A.Shared) returns (all: seq<A.Label>)
    requires Alone(A.Move(d, FREE, A.WriteStart(data)), t, labels) == Some(A.Move(e, Inside(t), A.WriteLeaving(false)))
    requires Matches(a, e) && e.log == d.log + [A.Skipped(data)]
    ensures Ends(d, t, data, all, a, e)
  {
    all := labels + [A.UnlockWrite(t), A.UnlockShared(t)];
    AloneThen(A.Move(d, FREE, A.WriteStart(data)), t, labels, A.Move(e, Inside(t), A.WriteLeaving(false)), [A.UnlockWrite(t), A.UnlockShared(t)]);
    Leave(e, t, false);
  }

  lemma InsideThen(d: A.Shared, t: A.Tid, data: Bytes, l: A.Label) returns (labels: seq<A.Label>)
    requires l.t == t && A.CanMove(d, Inside(t), A.WriteInside(data), l)
    ensures Alone(A.Move(d, FREE, A.WriteStart(data)), t, labels) == Some(A.Moved(d, Inside(t), A.WriteInside(data), l))
  {
    var entry := [A.LockShared(t), A.LockMu(t)];
    Enter(d, t, data);
    OneMore(A.Move(d, FREE, A.WriteStart(data)), t, entry, A.Move(d, Inside(t), A.WriteInside(data)), l);
    labels := entry + [l];
  }

  /** A closed or disabled store. */
  lemma SkippedWrite(a: L.Archive, d: A.Shared, t: A.Tid, data: Bytes) returns (labels: seq<A.Label>, e: A.Shared)
    requires Matches(a, d) && (a.closed || a.writeDisabled)
    ensures Ends(d, t, data, labels, a, e)
  {
    labels := InsideThen(d, t, data, A.SkipWrite(t));
    e := d.(log := d.log + [A.Skipped(data)]);
    labels := LeaveEarly(d, t, data, labels, a, e);
  }

  /** No name is free, or the file cannot be created. */
  lemma UnrotatedWrite(a: L.Archive, d: A.Shared, t: A.Tid, data: Bytes, sequence: nat) returns (labels: seq<A.Label>, e: A.Shared)
    requires Matches(a, d) && !a.closed && !a.writeDisabled
    ensures Ends(d, t, data, labels, L.Disabled(a.(fileSequence := sequence)), e)
  {
    labels := InsideThen(d, t, data, A.FailRotate(t));
    e := d.(writeDisabled := true, file := None, log := d.log + [A.Skipped(data)]);
    labels := LeaveEarly(d, t, data, labels, L.Disabled(a.(fileSequence := sequence)), e);
  }

  lemma SwitchedFiles(a: L.Archive, name: Name, now: int, disk: L.Disk)
    requires Unnamed(a.dir, name)
    ensures FilesOf(L.Switched(a, name, now, disk).dir) == FilesOf(a.dir)[name := []]
  {
    FilesSnoc(a.dir, LogFile(name, [], disk.stamp));
  }

  /** A new file is made but the old one does not close. */
  lemma UnclosedWrite(a: L.Archive, d: A.Shared, t: A.Tid, data: Bytes, name: Name, now: int, disk: L.Disk)
    returns (labels: seq<A.Label>, e: A.Shared)
    requires Matches(a, d) && !a.closed && !a.writeDisabled && Unnamed(a.dir, name) && name !in d.dir && name !in d.made
    ensures Ends(d, t, data, labels, L.Disabled(L.Switched(a, name, now, disk)), e)
  {
    labels := InsideThen(d, t, data, A.Rotate(t, name, false));
    SwitchedFiles(a, name, now, disk);
    e := A.Moved(d, Inside(t), A.WriteInside(data), A.Rotate(t, name, false)).d;
    labels := LeaveEarly(d, t, data, labels, L.Disabled(L.Switched(a, name, now, disk)), e);
  }

  lemma RotatedReady(a: L.Archive, d: A.Shared, t: A.Tid, data: Bytes, name: Name, now: int, disk: L.Disk)
    returns (labels: seq<A.Label>, e: A.Shared)
    requires Matches(a, d) && !a.closed && !a.writeDisabled && Unnamed(a.dir, name) && name !in d.dir && name !in d.made
    ensures Ready(d, t, data, labels, L.Switched(a, name, now, disk), e)
  {
    labels := InsideThen(d, t, data, A.Rotate(t, name, true));
    SwitchedFiles(a, name, now, disk);
    e := A.Moved(d, Inside(t), A.WriteInside(data), A.Rotate(t, name, true)).d;
  }

  lemma ReusedReady(a: L.Archive, d: A.Shared, t: A.Tid, data: Bytes) returns (labels: seq<A.Label>)
    requires Matches(a, d) && !a.closed && !a.writeDisabled && a.open
    ensures Ready(d, t, data, labels, a, d)
  {
    labels := InsideThen(d, t, data, A.Reuse(t));
  }

  function Least(a: nat, b: nat): nat { if a < b then a else b }

  /** The fields after the append itself. */
  function Grown(e: A.Shared, bytes: Bytes, fate: A.Fate, failed: bool): A.Shared
    requires e.file.Some? && e.file.value in e.dir
  {
    var f := e.(dir := e.dir[e.file.value := e.dir[e.file.value] + bytes], log := e.log + [fate]);
    if failed then f.(writeDisabled := true, file := None) else f
  }

  /** An append that fails or is cut short. */
  lemma FailedAppend(b: L.Archive, o: L.ValidOptions, d: A.Shared, t: A.Tid, data: Bytes, disk: L.Disk,
                     labels: seq<A.Label>, e: A.Shared) returns (all: seq<A.Label>, f: A.Shared)
    requires Ready(d, t, data, labels, b, e) && L.FileInv(b, o) && b.open && !b.closed
    requires disk.writeError || disk.written < |data|
    ensures Ends(d, t, data, all, L.Appended(b, o, data, disk), f)
  {
    var w := Least(disk.written, |data|);
    var l := A.AppendRecord(t, w, disk.writeError, false);
    FilesAppend(b.dir, b.currentPath, data[..w], disk.stamp);
    f := Grown(e, data[..w], A.Skipped(data), true);
    OneMore(A.Move(d, FREE, A.WriteStart(data)), t, labels, A.Move(e, Inside(t), A.WriteReady(data)), l);
    all := labels + [l];
    all := LeaveEarly(d, t, data, all, L.Appended(b, o, data, disk), f);
  }

  /** An append that works, up to the point where both locks are released. */
  lemma WholeAppend(b: L.Archive, o: L.ValidOptions, d: A.Shared, t: A.Tid, data: Bytes, disk: L.Disk, cleanup: bool,
                    labels: seq<A.Label>, e: A.Shared) returns (all: seq<A.Label>, f: A.Shared)
    requires Ready(d, t, data, labels, b, e) && L.FileInv(b, o) && b.open && !b.closed
    requires !disk.writeError && disk.written >= |data|
    ensures Alone(A.Move(d, FREE, A.WriteStart(data)), t, all) == Some(A.Move(f, FREE, if cleanup then A.CleanStart else A.Done))
    ensures Matches(L.Extended(b, data, disk), f) && |f.log| == |d.log| + 1 && d.log <= f.log && f.log[|d.log|].data == data
  {
    var l := A.AppendRecord(t, |data|, false, cleanup);
    assert data[..|data|] == data;
    FilesAppend(b.dir, b.currentPath, data, disk.stamp);
    f := Grown(e, data, A.Stored(b.currentPath, |e.dir[b.currentPath]|, data), false);
    OneMore(A.Move(d, FREE, A.WriteStart(data)), t, labels, A.Move(e, Inside(t), A.WriteReady(data)), l);
    all := labels + [l];
    AloneThen(A.Move(d, FREE, A.WriteStart(data)), t, all, A.Move(f, Inside(t), A.WriteLeaving(cleanup)), [A.UnlockWrite(t), A.UnlockShared(t)]);
    Leave(f, t, cleanup);
    all := all + [A.UnlockWrite(t), A.UnlockShared(t)];
  }

  /** The cleanup after an append. */
  lemma CleanedWrite(b: L.Archive, o: L.ValidOptions, d: A.Shared, t: A.Tid, data: Bytes, disk: L.Disk,
                     labels: seq<A.Label>, f: A.Shared) returns (all: seq<A.Label>, g: A.Shared)
    requires L.FileInv(b, o) && b.open && !b.closed && Matches(b, f)
    requires Alone(A.Move(d, FREE, A.WriteStart(data)), t, labels) == Some(A.Move(f, FREE, A.CleanStart))
    requires |f.log| == |d.log| + 1 && d.log <= f.log && f.log[|d.log|].data == data
    ensures var r := L.Cleaned(b.dir, b.currentPath, o, disk);
      var c := b.(bytesSinceGC := 0, dir := r.0);
      Ends(d, t, data, all, if r.1 then c else L.Disabled(c), g)
  {
    var r := L.Cleaned(b.dir, b.currentPath, o, disk);
    var names := Gone(b.dir, r.0);
    L.CleanupShrinks(b.dir, b.currentPath, o, disk);
    FilesShrunk(b.dir, r.0, b.currentPath);
    var cleaning := CleanUp(f, t, names, !r.1);
    AloneThen(A.Move(d, FREE, A.WriteStart(data)), t, labels, A.Move(f, FREE, A.CleanStart), cleaning);
    all := labels + cleaning;
    g := if r.1 then Cleared(f, names) else Cleared(f, names).(writeDisabled := true, file := None);
  }

  lemma AppendIsSteps(b: L.Archive, o: L.ValidOptions, d: A.Shared, t: A.Tid, data: Bytes, disk: L.Disk,
                      labels: seq<A.Label>, e: A.Shared) returns (all: seq<A.Label>, g: A.Shared)
    requires Ready(d, t, data, labels, b, e) && L.FileInv(b, o) && L.Fits(b, o, |data|) && |data| <= o.maxRecordBytes && !b.closed
    ensures Ends(d, t, data, all, L.Appended(b, o, data, disk), g)
  {
    L.AppendedCases(b, o, data, disk);
    if disk.writeError || disk.written < |data| {
      all, g := FailedAppend(b, o, d, t, data, disk, labels, e);
    } else if b.bytesSinceGC + |data| < o.cleanupEveryBytes {
      all, g := WholeAppend(b, o, d, t, data, disk, false, labels, e);
    } else {
      all, g := WholeAppend(b, o, d, t, data, disk, true, labels, e);
      L.ExtendedKeeps(b, o, data, disk);
      all, g := CleanedWrite(L.Extended(b, data, disk), o, d, t, data, disk, all, g);
    }
  }

  /** The names the disk can still offer are new to the store: they carry the time, the
      process and a sequence number that only grows. */
  ghost predicate NewNames(a: L.Archive, disk: L.Disk, d: A.Shared) {
    forall k :: k > a.fileSequence ==> disk.nameOf(k) in d.dir || disk.nameOf(k) !in d.made
  }

  lemma {:induction false} AllocatedLater(dir: Directory, disk: L.Disk, sequence: nat, last: nat)
    ensures var r := L.Allocate(dir, disk, sequence, last);
      r.0.Some? ==> exists k :: k > sequence && r.0.value == disk.nameOf(k)
    decreases last - sequence
  {
    if sequence < last && L.HasName(dir, disk.nameOf(sequence + 1)) {
      AllocatedLater(dir, disk, sequence + 1, last);
    }
  }

  lemma AllocatedNamed(a: L.Archive, disk: L.Disk)
    requires L.Names(disk)
    ensures var r := L.Allocate(a.dir, disk, a.fileSequence, a.fileSequence + L.NAME_ATTEMPTS);
      r.0.Some? ==> r.0.value != ""
  {
    L.AllocateFree(a.dir, disk, a.fileSequence, a.fileSequence + L.NAME_ATTEMPTS);
  }

  lemma AllocatedNew(a: L.Archive, disk: L.Disk, d: A.Shared)
    requires Matches(a, d) && NewNames(a, disk, d)
    ensures var r := L.Allocate(a.dir, disk, a.fileSequence, a.fileSequence + L.NAME_ATTEMPTS);
      r.0.Some? ==> Unnamed(a.dir, r.0.value) && r.0.value !in d.dir && r.0.value !in d.made
  {
    var last := a.fileSequence + L.NAME_ATTEMPTS;
    var r := L.Allocate(a.dir, disk, a.fileSequence, last);
    L.AllocateFree(a.dir, disk, a.fileSequence, last);
    AllocatedLater(a.dir, disk, a.fileSequence, last);
    if r.0.Some? {
      FilesNamed(a.dir, r.0.value);
    }
  }

  /** Every write of the store, whatever the disk does, is a sequence of steps that one thread
      of the shared store can take while the locks are free; it leaves the same files, the
      same open file and the same flags, and decides the fate of exactly its record. */
  lemma WriteIsSteps(a: L.Archive, o: L.ValidOptions, p: Bytes, now: int, disk: L.Disk, d: A.Shared, t: A.Tid)
    returns (labels: seq<A.Label>, e: A.Shared)
    requires L.FileInv(a, o) && L.Names(disk) && Matches(a, d) && NewNames(a, disk, d)
    ensures Ends(d, t, TruncateRecord(p, o.maxRecordBytes), labels, L.Written(a, o, p, now, disk), e)
  {
    var data := TruncateRecord(p, o.maxRecordBytes);
    if a.closed || a.writeDisabled {
      labels, e := SkippedWrite(a, d, t, data);
    } else if L.NeedsRotation(a, o, L.Day(now), |data|) {
      labels, e := RotatedWriteIsSteps(a, o, p, now, disk, d, t);
    } else {
      labels := ReusedReady(a, d, t, data);
      labels, e := AppendIsSteps(a, o, d, t, data, disk, labels, d);
    }
  }

  lemma RotatedWriteIsSteps(a: L.Archive, o: L.ValidOptions, p: Bytes, now: int, disk: L.Disk, d: A.Shared, t: A.Tid)
    returns (labels: seq<A.Label>, e: A.Shared)
    requires L.FileInv(a, o) && L.Names(disk) && Matches(a, d) && NewNames(a, disk, d) && !a.closed && !a.writeDisabled
    requires L.NeedsRotation(a, o, L.Day(now), |TruncateRecord(p, o.maxRecordBytes)|)
    ensures Ends(d, t, TruncateRecord(p, o.maxRecordBytes), labels, L.Written(a, o, p, now, disk), e)
  {
    var data := TruncateRecord(p, o.maxRecordBytes);
    var found := L.Allocate(a.dir, disk, a.fileSequence, a.fileSequence + L.NAME_ATTEMPTS);
    var b := a.(fileSequence := found.1);
    AllocatedNew(a, disk, d);
    L.RotatedCases(a, o, p, now, disk);
    if found.0 == None {
      labels, e := UnrotatedWrite(a, d, t, data, found.1);
    } else if a.open && !disk.closeOk {
      labels, e := UnclosedWrite(b, d, t, data, found.0.value, now, disk);
    } else {
      L.SequenceKeeps(a, o, found.1);
      AllocatedNamed(a, disk);
      L.SwitchedKeeps(b, o, found.0.value, now, disk);
      labels, e := RotatedReady(b, d, t, data, found.0.value, now, disk);
      labels, e := AppendIsSteps(L.Switched(b, found.0.value, now, disk), o, d, t, data, disk, labels, e);
    }
  }

  // ------------------------------------------------- inside the whole system

  /** The state reached by taking labelled steps of the whole system. */
  function After(s: A.State, labels: seq<A.Label>): Option<A.State> {
    if labels == [] then Some(s)
    else
      var v, l := After(s, labels[..|labels| - 1]), labels[|labels| - 1];
      if v.Some? && A.Enabled(v.value, l) then Some(A.Next(v.value, l)) else None
  }

  /** A thread that steps alone does so among any others. */
  lemma {:induction false} AloneAmongOthers(s: A.State, t: A.Tid, labels: seq<A.Label>)
    requires t in s.threads
    ensures var m := Alone(A.Move(s.d, s.k, s.threads[t]), t, labels);
      m.Some? ==> After(s, labels) == Some(A.State(m.value.d, m.value.k, s.threads[t := m.value.q]))
  {
    if labels == [] {
      assert s.threads[t := s.threads[t]] == s.threads;
    } else {
      var front, l := labels[..|labels| - 1], labels[|labels| - 1];
      AloneAmongOthers(s, t, front);
      var v := Alone(A.Move(s.d, s.k, s.threads[t]), t, front);
      if v.Some? && l.t == t && A.CanMove(v.value.d, v.value.k, v.value.q, l) {
        var q := A.Moved(v.value.d, v.value.k, v.value.q, l).q;
        assert s.threads[t := v.value.q][t := q] == s.threads[t := q];
      }
    }
  }

  /** A new thread of the shared store that runs undisturbed does the write. */
  lemma WriteRefines(a: L.Archive, o: L.ValidOptions, p: Bytes, now: int, disk: L.Disk, s: A.State, t: A.Tid)
    returns (labels: seq<A.Label>, u: A.State)
    requires L.FileInv(a, o) && L.Names(disk) && Matches(a, s.d) && NewNames(a, disk, s.d)
    requires s.k == FREE && t in s.threads && s.threads[t] == A.WriteStart(TruncateRecord(p, o.maxRecordBytes))
    ensures After(s, labels) == Some(u)
    ensures u.k == FREE && u.threads == s.threads[t := A.Done] && Matches(L.Written(a, o, p, now, disk), u.d)
    ensures |u.d.log| == |s.d.log| + 1 && s.d.log <= u.d.log
    ensures u.d.log[|s.d.log|].data == TruncateRecord(p, o.maxRecordBytes)
  {
    var e;
    labels, e := WriteIsSteps(a, o, p, now, disk, s.d, t);
    AloneAmongOthers(s, t, labels);
    u := A.State(e, FREE, s.threads[t := A.Done]);
  }
}
