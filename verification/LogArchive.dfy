/**
  The rotating log archive used by one caller at a time: options, rotation, writing with
  byte accounting, cleanup, and the byte budgets they keep.

  The disk is an input: which names exist follows from the directory, but a creation, a
  close, a write, a listing or a removal may fail.
 */
module LogArchive {
  import opened Optional
  import opened Records
  import opened Pruning
  import Text

  datatype Options = Options(maxAge: int, preferredMinAge: int, maxFileBytes: int, maxTotalBytes: int,
                             maxRecordBytes: int, cleanupEveryBytes: int)

  /** validateOptions: the first complaint, if any. */
  function ValidateOptions(o: Options): Option<string> {
    if o.maxAge <= 0 then Some("application log MaxAge must be greater than zero")
    else if o.preferredMinAge < 0 then Some("application log PreferredMinAge cannot be negative")
    else if o.preferredMinAge > o.maxAge then Some("application log PreferredMinAge cannot exceed MaxAge")
    else if o.maxFileBytes <= 0 then Some("application log MaxFileBytes must be greater than zero")
    else if o.maxTotalBytes <= 0 then Some("application log MaxTotalBytes must be greater than zero")
    else if o.maxFileBytes > o.maxTotalBytes then Some("application log MaxFileBytes cannot exceed MaxTotalBytes")
    else if o.maxRecordBytes <= 0 then Some("application log MaxRecordBytes must be greater than zero")
    else if o.maxRecordBytes > o.maxFileBytes then Some("application log MaxRecordBytes cannot exceed MaxFileBytes")
    else if o.cleanupEveryBytes <= 0 then Some("application log CleanupEveryBytes must be greater than zero")
    else None
  }

  type ValidOptions = o: Options | ValidateOptions(o) == None witness Options(1, 0, 1, 1, 1, 1)

  const NAME_ATTEMPTS: nat := 1000
  const SECONDS_PER_DAY: nat := 86400

  function Day(now: int): int { now / SECONDS_PER_DAY }

  /** What the file system does during one call: the name made from a sequence number,
      whether creating a file and closing the old one succeed, how many bytes of the record
      are written and whether the write reports an error, the time stamped on the file, and
      how cleanup's two listings and its removals fare. */
  datatype Disk = Disk(nameOf: nat -> Name, createOk: bool, closeOk: bool, written: nat, writeError: bool, stamp: int,
                       firstListOk: bool, secondListOk: bool, stuck: set<Name>, cleanupNow: int)

  /** Names made by the store are never empty. */
  ghost predicate Names(d: Disk) { forall k :: d.nameOf(k) != "" }

  /** Nothing fails. */
  predicate Healthy(d: Disk, record: nat) {
    d.createOk && d.closeOk && d.written >= record && !d.writeError && d.firstListOk && d.secondListOk && d.stuck == {}
  }

  /** The store's fields and its directory; `created` is the history of names it made. */
  datatype Archive = Archive(dir: Directory, open: bool, currentPath: Name, currentDay: int, currentSize: int,
                             bytesSinceGC: int, fileSequence: nat, closed: bool, writeDisabled: bool, created: set<Name>)

  predicate HasName(dir: Directory, name: Name) { exists i :: 0 <= i < |dir| && dir[i].name == name }

  /** Writing through the handle of the file with that name. */
  function Append(dir: Directory, name: Name, bytes: Bytes, stamp: int): Directory {
    if dir == [] then []
    else if dir[0].name == name then [dir[0].(data := dir[0].data + bytes, modTime := stamp)] + dir[1..]
    else [dir[0]] + Append(dir[1..], name, bytes, stamp)
  }

  /** createLogFileLocked: the name found, if any, and the sequence number reached; the
      search gives up at sequence number `last`. */
  function Allocate(dir: Directory, d: Disk, sequence: nat, last: nat): (Option<Name>, nat)
    decreases last - sequence, |dir|
  {
    if sequence >= last then (None, sequence)
    else if HasName(dir, d.nameOf(sequence + 1)) then Allocate(dir, d, sequence + 1, last)
    else (if d.createOk then Some(d.nameOf(sequence + 1)) else None, sequence + 1)
  }

  /** The store with a new, empty current file. */
  function Switched(a: Archive, name: Name, now: int, d: Disk): Archive {
    a.(dir := a.dir + [LogFile(name, [], d.stamp)], open := true, currentPath := name,
       currentDay := Day(now), currentSize := 0, created := a.created + {name})
  }

  /** rotateLocked. */
  function Rotated(a: Archive, now: int, d: Disk): (Archive, bool) {
    var found := Allocate(a.dir, d, a.fileSequence, a.fileSequence + NAME_ATTEMPTS);
    var b := a.(fileSequence := found.1);
    if found.0 == None then (b, false) else (Switched(b, found.0.value, now, d), a.open ==> d.closeOk)
  }

  /** Rotation from the name found and the sequence number reached. */
  lemma RotatedBy(a: Archive, now: int, d: Disk, name: Option<Name>, sequence: nat)
    requires (name, sequence) == Allocate(a.dir, d, a.fileSequence, a.fileSequence + NAME_ATTEMPTS)
    ensures var b := a.(fileSequence := sequence);
      Rotated(a, now, d) == if name == None then (b, false) else (Switched(b, name.value, now, d), a.open ==> d.closeOk)
  {
  }

  function Disabled(a: Archive): Archive { a.(writeDisabled := true, open := false) }

  /** The age loop of cleanup: the directory left and whether every removal worked. */
  function Expired(fs: seq<LogFile>, dir: Directory, current: Name, cutoff: int, stuck: set<Name>): (Directory, bool) {
    if fs == [] then (dir, true)
    else
      var (rest, ok) := Expired(fs[..|fs| - 1], dir, current, cutoff, stuck);
      var f := fs[|fs| - 1];
      if !ok || f.name == current || f.modTime >= cutoff then (rest, ok)
      else if f.name in stuck then (rest, false)
      else (Without(rest, f.name), true)
  }

  /** The part of cleanup after the second listing. */
  function PrunedToSize(left: Directory, current: Name, o: Options, d: Disk): (Directory, bool) {
    if TotalBytes(left) <= o.maxTotalBytes then (left, true)
    else
      var p := TwoPass(Listing(left), Begin(left), o.maxTotalBytes, current, d.stuck, d.cleanupNow - o.preferredMinAge);
      (p.dir, !p.failed && p.total <= o.maxTotalBytes)
  }

  /** cleanup: the directory left and whether it returned nil. */
  function Cleaned(dir: Directory, current: Name, o: Options, d: Disk): (Directory, bool) {
    if !d.firstListOk then (dir, false)
    else
      var (left, ok) := Expired(Listing(dir), dir, current, d.cleanupNow - o.maxAge, d.stuck);
      if !ok || !d.secondListOk then (left, false)
      else PrunedToSize(left, current, o, d)
  }

  predicate NeedsRotation(a: Archive, o: Options, day: int, length: nat) {
    !a.open || a.currentDay != day || (a.currentSize > 0 && a.currentSize + length > o.maxFileBytes)
  }

  /** Write from the point where the file to write to is open. */
  function Appended(a: Archive, o: Options, data: Bytes, d: Disk): Archive {
    var written := if d.written < |data| then d.written else |data|;
    var b := a.(dir := Append(a.dir, a.currentPath, data[..written], d.stamp));
    if d.writeError || written != |data| then Disabled(b)
    else
      var gc := b.bytesSinceGC + written;
      if gc < o.cleanupEveryBytes then b.(currentSize := b.currentSize + written, bytesSinceGC := gc)
      else
        var (dir, ok) := Cleaned(b.dir, b.currentPath, o, d);
        var c := b.(currentSize := b.currentSize + written, bytesSinceGC := 0, dir := dir);
        if ok then c else Disabled(c)
  }

  /** Write. */
  function Written(a: Archive, o: ValidOptions, p: Bytes, now: int, d: Disk): Archive {
    var data := TruncateRecord(p, o.maxRecordBytes);
    if a.closed || a.writeDisabled then a
    else if NeedsRotation(a, o, Day(now), |data|) then
      var (b, ok) := Rotated(a, now, d);
      if ok then Appended(b, o, data, d) else Disabled(b)
    else Appended(a, o, data, d)
  }

  // ------------------------------------------------------------- the object

  class Store {
    const opts: ValidOptions
    var dir: Directory
    var file: bool
    var currentPath: Name
    var currentDay: int
    var currentSize: int
    var bytesSinceGC: int
    var fileSequence: nat
    var closed: bool
    var writeDisabled: bool
    ghost var created: set<Name>

    ghost function View(): Archive
      reads this
    {
      Archive(dir, file, currentPath, currentDay, currentSize, bytesSinceGC, fileSequence, closed, writeDisabled, created)
    }

    /** The store before Open's cleanup and first rotation, over the files it finds. */
    constructor (opts: ValidOptions, found: Directory)
      ensures this.opts == opts && View() == Archive(found, false, "", 0, 0, 0, 0, false, false, {})
    {
      this.opts, dir, file, currentPath := opts, found, false, "";
      currentDay, currentSize, bytesSinceGC, fileSequence := 0, 0, 0, 0;
      closed, writeDisabled, created := false, false, {};
    }

    method CreateLogFileLocked(d: Disk) returns (name: Option<Name>)
      modifies this`fileSequence
      ensures (name, fileSequence) == Allocate(dir, d, old(fileSequence), old(fileSequence) + NAME_ATTEMPTS)
    {
      var attempts := 0;
      while attempts < NAME_ATTEMPTS
        invariant attempts <= NAME_ATTEMPTS && fileSequence == old(fileSequence) + attempts
        invariant Allocate(dir, d, old(fileSequence), old(fileSequence) + NAME_ATTEMPTS) ==
                  Allocate(dir, d, fileSequence, old(fileSequence) + NAME_ATTEMPTS)
      {
        fileSequence := fileSequence + 1;
        if !HasName(dir, d.nameOf(fileSequence)) {
          return if d.createOk then Some(d.nameOf(fileSequence)) else None;
        }
        attempts := attempts + 1;
      }
      name := None;
    }

    method RotateLocked(now: int, d: Disk) returns (ok: bool)
      modifies this
      ensures View() == Rotated(old(View()), now, d).0 && ok == Rotated(old(View()), now, d).1
    {
      ghost var before := View();
      var newName := CreateLogFileLocked(d);
      RotatedBy(before, now, d, newName, fileSequence);
      if newName == None {
        return false;
      }
      dir := dir + [LogFile(newName.value, [], d.stamp)];
      created := created + {newName.value};
      ok := file ==> d.closeOk;
      file, currentPath, currentDay, currentSize := true, newName.value, Day(now), 0;
    }

    method DisableWritesLocked()
      modifies this
      ensures View() == Disabled(old(View()))
    {
      writeDisabled, file := true, false;
    }

    method DisableWrites()
      modifies this
      ensures View() == if old(writeDisabled || closed) then old(View()) else Disabled(old(View()))
    {
      if !writeDisabled && !closed {
        DisableWritesLocked();
      }
    }

    /** The first close syncs and closes the open file, and reports whether both worked. */
    method Close(syncOk: bool, closeOk: bool) returns (ok: bool)
      modifies this
      ensures View() == if old(closed) then old(View()) else old(View()).(closed := true, open := false)
      ensures ok <==> old(closed) || !old(file) || (syncOk && closeOk)
    {
      if closed {
        return true;
      }
      closed := true;
      if !file {
        return true;
      }
      file := false;
      ok := syncOk && closeOk;
    }

    method Write(p: Bytes, now: int, d: Disk) returns (n: nat)
      modifies this
      ensures n == |p| && View() == Written(old(View()), opts, p, now, d)
    {
      n := |p|;
      var data := TruncateRecord(p, opts.maxRecordBytes);
      if closed || writeDisabled {
        return;
      }
      if !file || currentDay != Day(now) || (currentSize > 0 && currentSize + |data| > opts.maxFileBytes) {
        var ok := RotateLocked(now, d);
        if !ok {
          DisableWritesLocked();
          return;
        }
      }
      WriteOpenFile(data, d);
    }

    /** Write from the point where the file to write to is open. */
    method WriteOpenFile(data: Bytes, d: Disk)
      requires !writeDisabled && !closed
      modifies this
      ensures View() == Appended(old(View()), opts, data, d)
    {
      var written := if d.written < |data| then d.written else |data|;
      dir := Append(dir, currentPath, data[..written], d.stamp);
      if d.writeError || written != |data| {
        DisableWritesLocked();
        return;
      }
      currentSize := currentSize + written;
      bytesSinceGC := bytesSinceGC + written;
      if bytesSinceGC >= opts.cleanupEveryBytes {
        bytesSinceGC := 0;
        var cleaned := Cleanup(d);
        if !cleaned {
          DisableWrites();
        }
      }
    }

    method Cleanup(d: Disk) returns (ok: bool)
      modifies this`dir
      ensures (dir, ok) == Cleaned(old(dir), currentPath, opts, d)
    {
      if !d.firstListOk {
        return false;
      }
      var removedAll := ExpireOld(d);
      if !removedAll || !d.secondListOk {
        return false;
      }
      ok := PruneToSize(d);
    }

    method ExpireOld(d: Disk) returns (ok: bool)
      modifies this`dir
      ensures (dir, ok) == Expired(Listing(old(dir)), old(dir), currentPath, d.cleanupNow - opts.maxAge, d.stuck)
    {
      var files := Listing(dir);
      var cutoff := d.cleanupNow - opts.maxAge;
      ghost var start := dir;
      for i := 0 to |files|
        invariant (dir, true) == Expired(files[..i], start, currentPath, cutoff, d.stuck)
      {
        var f := files[i];
        ExpiredStep(files, i, start, currentPath, cutoff, d.stuck);
        if f.name == currentPath || f.modTime >= cutoff {
          continue;
        }
        if f.name in d.stuck {
          FailedFrom(files, start, currentPath, cutoff, d.stuck, i + 1);
          return false;
        }
        dir := Without(dir, f.name);
      }
      assert files[..|files|] == files;
      ok := true;
    }

    method PruneToSize(d: Disk) returns (ok: bool)
      modifies this`dir
      ensures (dir, ok) == PrunedToSize(old(dir), currentPath, opts, d)
    {
      var files := Listing(dir);
      var total := 0;
      for i := 0 to |files|
        invariant total == TotalBytes(files[..i]) && dir == old(dir)
      {
        TotalSnoc(files[..i], files[i]);
        assert files[..i + 1] == files[..i] + [files[i]];
        total := total + |files[i].data|;
      }
      assert files[..|files|] == files;
      ListingSorted(dir);
      if total <= opts.maxTotalBytes {
        return true;
      }
      var p := Progress(dir, total, {}, false);
      p := PrunePass(files, p, d, false);
      p := PrunePass(files, p, d, true);
      ok := !p.failed && p.total <= opts.maxTotalBytes;
    }

    /** One of the two passes; `p` holds the local variables of the loops. */
    method PrunePass(files: seq<LogFile>, start: Progress, d: Disk, recent: bool) returns (p: Progress)
      requires start.dir == dir
      modifies this`dir
      ensures p == Pass(files, start, opts.maxTotalBytes, currentPath, d.stuck, d.cleanupNow - opts.preferredMinAge, recent)
      ensures p.dir == dir
    {
      var cutoff := d.cleanupNow - opts.preferredMinAge;
      p := start;
      for i := 0 to |files|
        invariant p == Pass(files[..i], start, opts.maxTotalBytes, currentPath, d.stuck, cutoff, recent)
        invariant p.dir == dir
      {
        var f := files[i];
        assert files[..i + 1][..i] == files[..i];
        if p.failed || p.total <= opts.maxTotalBytes || f.name == currentPath || f.name in p.removed {
          continue;
        }
        if (f.modTime < cutoff) == recent {
          continue;
        }
        if f.name in d.stuck {
          p := p.(failed := true);
        } else {
          dir := Without(dir, f.name);
          p := Progress(dir, p.total - |f.data|, p.removed + {f.name}, false);
        }
      }
      assert files[..|files|] == files;
    }
  }

  // ------------------------------------------------------------- budgets

  /** What every moment keeps: names are distinct, the current file is there and is what
      the store thinks it is, and no file the store made exceeds the file budget. */
  ghost predicate FileInv(a: Archive, o: ValidOptions) {
    && DistinctNames(a.dir)
    && (forall f :: f in a.dir && f.name in a.created ==> |f.data| <= o.maxFileBytes)
    && (a.currentPath != "" ==> a.currentPath in a.created && !Unnamed(a.dir, a.currentPath))
    && (a.open ==> a.currentPath != "")
    && (a.open ==> forall f :: f in a.dir && f.name == a.currentPath ==> |f.data| == a.currentSize)
    && "" !in a.created
  }

  ghost predicate BudgetInv(a: Archive, o: ValidOptions) {
    && 0 <= a.bytesSinceGC < o.cleanupEveryBytes
    && TotalBytes(a.dir) <= o.maxTotalBytes + a.bytesSinceGC
  }

  lemma {:induction false} AppendFacts(dir: Directory, name: Name, bytes: Bytes, stamp: int)
    requires DistinctNames(dir)
    ensures var r := Append(dir, name, bytes, stamp);
      && DistinctNames(r)
      && (forall g :: g in r && g.name != name <==> g in dir && g.name != name)
      && (forall g :: g in r && g.name == name ==>
            exists f :: f in dir && f.name == name && g == f.(data := f.data + bytes, modTime := stamp))
      && (!Unnamed(dir, name) ==> !Unnamed(r, name))
      && TotalBytes(dir) <= TotalBytes(r) <= TotalBytes(dir) + |bytes|
  {
    if dir != [] {
      assert dir == [dir[0]] + dir[1..];
      var r := Append(dir, name, bytes, stamp);
      if dir[0].name == name {
        assert r[1..] == dir[1..] && r[0] in r && dir[0] in dir;
        assert r[0] == dir[0].(data := dir[0].data + bytes, modTime := stamp);
      } else {
        AppendFacts(dir[1..], name, bytes, stamp);
        assert r[1..] == Append(dir[1..], name, bytes, stamp);
      }
    }
  }

  lemma {:induction false} ExpiredShrinks(fs: seq<LogFile>, dir: Directory, current: Name, cutoff: int, stuck: set<Name>)
    requires DistinctNames(dir)
    ensures Shrunk(Expired(fs, dir, current, cutoff, stuck).0, dir, current)
    ensures stuck == {} ==> Expired(fs, dir, current, cutoff, stuck).1
  {
    if fs != [] {
      ExpiredShrinks(fs[..|fs| - 1], dir, current, cutoff, stuck);
      var f := fs[|fs| - 1];
      if f.name != current {
        WithoutShrinks(Expired(fs[..|fs| - 1], dir, current, cutoff, stuck).0, dir, current, f);
      }
    }
  }

  /** The current file, if listed, is within a bound. */
  ghost predicate CurrentWithin(dir: Directory, current: Name, bound: int) {
    forall g :: g in dir && g.name == current ==> |g.data| <= bound
  }

  /** Size pruning keeps the current file, ends within the limit when it reports success,
      and does report success when no removal fails. */
  lemma PrunedShrinks(dir: Directory, current: Name, o: ValidOptions, d: Disk)
    requires DistinctNames(dir)
    ensures var r := PrunedToSize(dir, current, o, d);
      && Shrunk(r.0, dir, current)
      && (r.1 ==> TotalBytes(r.0) <= o.maxTotalBytes)
      && (d.stuck == {} && CurrentWithin(dir, current, o.maxTotalBytes) ==> r.1)
  {
    var fs, limit, cutoff := Listing(dir), o.maxTotalBytes, d.cleanupNow - o.preferredMinAge;
    ListingSorted(dir);
    ListingDistinct(dir);
    TwoPassIsSweep(fs, Begin(dir), limit, current, d.stuck, cutoff);
    SweepTracked(dir, fs, limit, current, d.stuck, |fs|);
    assert fs[..|fs|] == fs;
    if d.stuck == {} && CurrentWithin(dir, current, limit) {
      SweepFits(dir, limit, current);
    }
  }

  lemma ShrunkWithin(left: Directory, dir: Directory, current: Name, bound: int)
    requires Shrunk(left, dir, current) && CurrentWithin(dir, current, bound)
    ensures CurrentWithin(left, current, bound)
  {
  }

  lemma CleanedCases(dir: Directory, current: Name, o: Options, d: Disk)
    ensures var aged := Expired(Listing(dir), dir, current, d.cleanupNow - o.maxAge, d.stuck);
      Cleaned(dir, current, o, d) ==
        if !d.firstListOk then (dir, false)
        else if !aged.1 || !d.secondListOk then (aged.0, false)
        else PrunedToSize(aged.0, current, o, d)
  {
  }

  /** cleanup never loses the current file or adds bytes, and when it returns nil the
      total is within the hard limit. */
  lemma CleanupShrinks(dir: Directory, current: Name, o: ValidOptions, d: Disk)
    requires DistinctNames(dir)
    ensures var r := Cleaned(dir, current, o, d);
      Shrunk(r.0, dir, current) && (r.1 ==> TotalBytes(r.0) <= o.maxTotalBytes)
  {
    var left := Expired(Listing(dir), dir, current, d.cleanupNow - o.maxAge, d.stuck).0;
    ExpiredShrinks(Listing(dir), dir, current, d.cleanupNow - o.maxAge, d.stuck);
    PrunedShrinks(left, current, o, d);
    ShrunkTrans(PrunedToSize(left, current, o, d).0, left, dir, current);
    CleanedCases(dir, current, o, d);
  }

  /** When no listing and no removal fails cleanup does return nil: the "above hard
      limit" error cannot occur, because the current file is within the file budget. */
  lemma HardLimitErrorUnreachable(dir: Directory, current: Name, o: ValidOptions, d: Disk)
    requires DistinctNames(dir) && d.firstListOk && d.secondListOk && d.stuck == {}
    requires CurrentWithin(dir, current, o.maxFileBytes)
    ensures Cleaned(dir, current, o, d).1
  {
    var left := Expired(Listing(dir), dir, current, d.cleanupNow - o.maxAge, d.stuck).0;
    ExpiredShrinks(Listing(dir), dir, current, d.cleanupNow - o.maxAge, d.stuck);
    ShrunkWithin(left, dir, current, o.maxFileBytes);
    PrunedShrinks(left, current, o, d);
    CleanedCases(dir, current, o, d);
  }

  lemma {:induction false} AllocateFree(dir: Directory, d: Disk, sequence: nat, last: nat)
    ensures var r := Allocate(dir, d, sequence, last);
      r.0.Some? ==> Unnamed(dir, r.0.value) && exists k :: r.0.value == d.nameOf(k)
    decreases last - sequence
  {
    if sequence < last {
      if HasName(dir, d.nameOf(sequence + 1)) {
        AllocateFree(dir, d, sequence + 1, last);
      } else {
        forall f | f in dir ensures f.name != d.nameOf(sequence + 1) {
          var i :| 0 <= i < |dir| && dir[i] == f;
        }
      }
    }
  }

  lemma {:induction false} SnocFile(dir: Directory, f: LogFile)
    requires DistinctNames(dir) && Unnamed(dir, f.name)
    ensures DistinctNames(dir + [f])
  {
    if dir == [] {
      assert dir + [f] == [f];
    } else {
      assert (dir + [f])[1..] == dir[1..] + [f];
      assert dir == [dir[0]] + dir[1..];
      SnocFile(dir[1..], f);
    }
  }

  /** Making a new current file keeps the invariant. */
  lemma SwitchedKeeps(a: Archive, o: ValidOptions, name: Name, now: int, d: Disk)
    requires FileInv(a, o) && Unnamed(a.dir, name) && name != ""
    ensures var r := Switched(a, name, now, d); FileInv(r, o) && TotalBytes(r.dir) == TotalBytes(a.dir)
  {
    var f := LogFile(name, [], d.stamp);
    SnocFile(a.dir, f);
    TotalSnoc(a.dir, f);
    assert forall g :: g in a.dir + [f] <==> g in a.dir || g == f;
    SwitchedNamed(a.dir, f);
  }

  lemma SwitchedNamed(dir: Directory, f: LogFile)
    ensures !Unnamed(dir + [f], f.name)
  {
    assert f in dir + [f];
  }

  lemma SequenceKeeps(a: Archive, o: ValidOptions, sequence: nat)
    requires FileInv(a, o)
    ensures FileInv(a.(fileSequence := sequence), o)
  {
  }

  lemma RotateKeeps(a: Archive, o: ValidOptions, now: int, d: Disk)
    requires FileInv(a, o) && Names(d)
    ensures var r := Rotated(a, now, d);
      && FileInv(r.0, o)
      && TotalBytes(r.0.dir) == TotalBytes(a.dir) && r.0.bytesSinceGC == a.bytesSinceGC
      && (r.1 ==> r.0.open && r.0.currentSize == 0)
      && r.0.writeDisabled == a.writeDisabled && r.0.closed == a.closed
  {
    var found := Allocate(a.dir, d, a.fileSequence, a.fileSequence + NAME_ATTEMPTS);
    AllocateFree(a.dir, d, a.fileSequence, a.fileSequence + NAME_ATTEMPTS);
    SequenceKeeps(a, o, found.1);
    if found.0.Some? {
      SwitchedKeeps(a.(fileSequence := found.1), o, found.0.value, now, d);
    }
  }

  /** A record fits into the file it is appended to. */
  predicate Fits(a: Archive, o: Options, length: nat) {
    a.open && (a.currentSize == 0 || a.currentSize + length <= o.maxFileBytes)
  }

  lemma AppendKeeps(a: Archive, o: ValidOptions, bytes: Bytes, length: nat, stamp: int)
    requires FileInv(a, o) && Fits(a, o, length) && |bytes| <= length <= o.maxRecordBytes
    ensures var b := a.(dir := Append(a.dir, a.currentPath, bytes, stamp), currentSize := a.currentSize + |bytes|);
      FileInv(b, o) && TotalBytes(b.dir) <= TotalBytes(a.dir) + |bytes|
  {
    AppendFacts(a.dir, a.currentPath, bytes, stamp);
  }

  /** Cleanup of a store that satisfies the file invariant keeps it. */
  lemma ShrunkKeeps(a: Archive, o: ValidOptions, left: Directory)
    requires FileInv(a, o) && Shrunk(left, a.dir, a.currentPath)
    ensures FileInv(a.(dir := left), o)
  {
  }

  /** Cleanup at the end of a Write: the file invariant stays, and on success the total is
      back within the hard limit. */
  lemma CleanedKeeps(a: Archive, o: ValidOptions, d: Disk)
    requires FileInv(a, o)
    ensures var r := Cleaned(a.dir, a.currentPath, o, d);
      && FileInv(a.(dir := r.0), o) && TotalBytes(r.0) <= TotalBytes(a.dir)
      && (r.1 ==> TotalBytes(r.0) <= o.maxTotalBytes)
  {
    CleanupShrinks(a.dir, a.currentPath, o, d);
    ShrunkKeeps(a, o, Cleaned(a.dir, a.currentPath, o, d).0);
  }

  lemma CleanedSucceeds(a: Archive, o: ValidOptions, d: Disk)
    requires FileInv(a, o) && a.open && d.firstListOk && d.secondListOk && d.stuck == {}
    ensures Cleaned(a.dir, a.currentPath, o, d).1
  {
    assert CurrentWithin(a.dir, a.currentPath, o.maxFileBytes);
    HardLimitErrorUnreachable(a.dir, a.currentPath, o, d);
  }

  lemma DisabledKeeps(a: Archive, o: ValidOptions)
    requires FileInv(a, o)
    ensures FileInv(Disabled(a), o)
  {
  }

  /** The fields that do not matter to the file invariant. */
  lemma CounterKeeps(a: Archive, o: ValidOptions, bytesSinceGC: int)
    requires FileInv(a, o)
    ensures FileInv(a.(bytesSinceGC := bytesSinceGC), o)
  {
  }

  /** The archive with the record in its current file, before any cleanup. */
  function Extended(a: Archive, data: Bytes, d: Disk): Archive {
    var written := if d.written < |data| then d.written else |data|;
    a.(dir := Append(a.dir, a.currentPath, data[..written], d.stamp), currentSize := a.currentSize + written)
  }

  lemma AppendedCases(a: Archive, o: Options, data: Bytes, d: Disk)
    ensures var b := Extended(a, data, d);
      var gc := a.bytesSinceGC + |data|;
      var (dir, ok) := Cleaned(b.dir, b.currentPath, o, d);
      Appended(a, o, data, d) ==
        if d.writeError || d.written < |data| then Disabled(b.(currentSize := a.currentSize))
        else if gc < o.cleanupEveryBytes then b.(bytesSinceGC := gc)
        else
          var c := b.(bytesSinceGC := 0, dir := dir);
          if ok then c else Disabled(c)
  {
  }

  /** A disabled store no longer tracks the size of its file. */
  lemma FailedKeeps(a: Archive, o: ValidOptions, size: int)
    requires FileInv(a, o)
    ensures FileInv(Disabled(a.(currentSize := size)), o)
  {
  }

  /** What a Write keeps. */
  ghost predicate Kept(a: Archive, o: ValidOptions, r: Archive, length: nat) {
    && FileInv(r, o)
    && TotalBytes(r.dir) <= TotalBytes(a.dir) + length
    && (r.writeDisabled || BudgetInv(r, o))
  }

  lemma FailedWriteKeeps(a: Archive, o: ValidOptions, b: Archive, length: nat)
    requires FileInv(b, o) && TotalBytes(b.dir) <= TotalBytes(a.dir) + length
    ensures Kept(a, o, Disabled(b.(currentSize := a.currentSize)), length)
  {
    FailedKeeps(b, o, a.currentSize);
  }

  lemma PlainWriteKeeps(a: Archive, o: ValidOptions, b: Archive, length: nat)
    requires FileInv(b, o) && TotalBytes(b.dir) <= TotalBytes(a.dir) + length && BudgetInv(a, o)
    requires a.bytesSinceGC + length < o.cleanupEveryBytes
    ensures Kept(a, o, b.(bytesSinceGC := a.bytesSinceGC + length), length)
  {
    CounterKeeps(b, o, a.bytesSinceGC + length);
  }

  lemma CleanedWriteKeeps(a: Archive, o: ValidOptions, b: Archive, length: nat, d: Disk)
    requires FileInv(b, o) && TotalBytes(b.dir) <= TotalBytes(a.dir) + length
    ensures var (dir, ok) := Cleaned(b.dir, b.currentPath, o, d);
      var c := b.(bytesSinceGC := 0, dir := dir);
      Kept(a, o, if ok then c else Disabled(c), length)
  {
    CleanedKeeps(b, o, d);
    var dir := Cleaned(b.dir, b.currentPath, o, d).0;
    CounterKeeps(b.(dir := dir), o, 0);
    DisabledKeeps(b.(dir := dir, bytesSinceGC := 0), o);
  }

  lemma ExtendedKeeps(a: Archive, o: ValidOptions, data: Bytes, d: Disk)
    requires FileInv(a, o) && Fits(a, o, |data|) && |data| <= o.maxRecordBytes
    ensures FileInv(Extended(a, data, d), o)
    ensures TotalBytes(Extended(a, data, d).dir) <= TotalBytes(a.dir) + |data|
  {
    var written := if d.written < |data| then d.written else |data|;
    AppendKeeps(a, o, data[..written], |data|, d.stamp);
  }

  /** One Write, whatever the disk does: the file invariant stays, the total grows by at
      most one record, and the byte budget stays unless writes end up disabled. */
  lemma AppendedKeeps(a: Archive, o: ValidOptions, data: Bytes, d: Disk)
    requires FileInv(a, o) && BudgetInv(a, o) && Fits(a, o, |data|) && |data| <= o.maxRecordBytes
    ensures Kept(a, o, Appended(a, o, data, d), |data|)
  {
    var b := Extended(a, data, d);
    AppendedCases(a, o, data, d);
    ExtendedKeeps(a, o, data, d);
    if d.writeError || d.written < |data| {
      FailedWriteKeeps(a, o, b, |data|);
    } else if a.bytesSinceGC + |data| < o.cleanupEveryBytes {
      PlainWriteKeeps(a, o, b, |data|);
    } else {
      CleanedWriteKeeps(a, o, b, |data|, d);
    }
  }

  /** A write that the disk serves does not disable the store. */
  lemma AppendedServed(a: Archive, o: ValidOptions, data: Bytes, d: Disk)
    requires FileInv(a, o) && Fits(a, o, |data|) && |data| <= o.maxRecordBytes && Healthy(d, |data|)
    ensures Appended(a, o, data, d).writeDisabled == a.writeDisabled
  {
    AppendedCases(a, o, data, d);
    ExtendedKeeps(a, o, data, d);
    CleanedSucceeds(Extended(a, data, d), o, d);
  }

  /** Where a write that needs a new file ends. */
  lemma RotatedCases(a: Archive, o: ValidOptions, p: Bytes, now: int, d: Disk)
    requires !a.closed && !a.writeDisabled && NeedsRotation(a, o, Day(now), |TruncateRecord(p, o.maxRecordBytes)|)
    ensures var found := Allocate(a.dir, d, a.fileSequence, a.fileSequence + NAME_ATTEMPTS);
      var b := a.(fileSequence := found.1);
      Written(a, o, p, now, d) ==
        if found.0 == None then Disabled(b)
        else if a.open && !d.closeOk then Disabled(Switched(b, found.0.value, now, d))
        else Appended(Switched(b, found.0.value, now, d), o, TruncateRecord(p, o.maxRecordBytes), d)
  {
  }

  lemma BudgetFits(a: Archive, b: Archive, o: ValidOptions)
    requires BudgetInv(a, o) && TotalBytes(b.dir) == TotalBytes(a.dir) && b.bytesSinceGC == a.bytesSinceGC
    ensures BudgetInv(b, o)
  {
  }

  /** One Write, rotation included. */
  lemma WriteKeeps(a: Archive, o: ValidOptions, p: Bytes, now: int, d: Disk)
    requires FileInv(a, o) && Names(d) && (a.writeDisabled || BudgetInv(a, o))
    ensures var r := Written(a, o, p, now, d);
      && FileInv(r, o)
      && (r.writeDisabled || BudgetInv(r, o))
      && (a.closed || a.writeDisabled ==> r == a)
      && (!a.writeDisabled ==> TotalBytes(r.dir) <= TotalBytes(a.dir) + |TruncateRecord(p, o.maxRecordBytes)|)
  {
    var data := TruncateRecord(p, o.maxRecordBytes);
    if !a.closed && !a.writeDisabled {
      if NeedsRotation(a, o, Day(now), |data|) {
        RotatedWriteKeeps(a, o, p, now, d);
      } else {
        AppendedKeeps(a, o, data, d);
      }
    }
  }

  lemma RotatedWriteKeeps(a: Archive, o: ValidOptions, p: Bytes, now: int, d: Disk)
    requires FileInv(a, o) && Names(d) && BudgetInv(a, o) && !a.closed && !a.writeDisabled
    requires NeedsRotation(a, o, Day(now), |TruncateRecord(p, o.maxRecordBytes)|)
    ensures Kept(a, o, Written(a, o, p, now, d), |TruncateRecord(p, o.maxRecordBytes)|)
  {
    var data := TruncateRecord(p, o.maxRecordBytes);
    var b := Rotated(a, now, d);
    RotateKeeps(a, o, now, d);
    BudgetFits(a, b.0, o);
    if b.1 {
      AppendedKeeps(b.0, o, data, d);
    } else {
      DisabledKeeps(b.0, o);
    }
  }

  /** A served Write keeps writes enabled. */
  lemma WriteServed(a: Archive, o: ValidOptions, p: Bytes, now: int, d: Disk)
    requires FileInv(a, o) && Names(d) && !a.writeDisabled
    requires Healthy(d, o.maxRecordBytes) && !HasName(a.dir, d.nameOf(a.fileSequence + 1))
    ensures !Written(a, o, p, now, d).writeDisabled
  {
    var data := TruncateRecord(p, o.maxRecordBytes);
    if !a.closed {
      if NeedsRotation(a, o, Day(now), |data|) {
        RotatedServed(a, o, now, d);
        RotateKeeps(a, o, now, d);
        AppendedServed(Rotated(a, now, d).0, o, data, d);
      } else {
        AppendedServed(a, o, data, d);
      }
    }
  }

  lemma RotatedServed(a: Archive, o: ValidOptions, now: int, d: Disk)
    requires d.createOk && d.closeOk && !HasName(a.dir, d.nameOf(a.fileSequence + 1))
    ensures Rotated(a, now, d) == (Switched(a.(fileSequence := a.fileSequence + 1), d.nameOf(a.fileSequence + 1), now, d), true)
  {
    assert Allocate(a.dir, d, a.fileSequence, a.fileSequence + NAME_ATTEMPTS) == (Some(d.nameOf(a.fileSequence + 1)), a.fileSequence + 1);
  }

  // ------------------------------------------------- what a write stores

  /** The bytes under a name, none if there is no such file. */
  function Content(dir: Directory, name: Name): Bytes {
    if dir == [] then [] else if dir[0].name == name then dir[0].data else Content(dir[1..], name)
  }

  lemma {:induction false} ContentOf(dir: Directory, f: LogFile)
    requires DistinctNames(dir) && f in dir
    ensures Content(dir, f.name) == f.data
  {
    assert dir == [dir[0]] + dir[1..];
    if f != dir[0] {
      ContentOf(dir[1..], f);
    }
  }

  lemma {:induction false} ContentAppended(dir: Directory, name: Name, bytes: Bytes, stamp: int)
    requires !Unnamed(dir, name)
    ensures Content(Append(dir, name, bytes, stamp), name) == Content(dir, name) + bytes
  {
    assert dir == [dir[0]] + dir[1..];
    if dir[0].name != name {
      ContentAppended(dir[1..], name, bytes, stamp);
      assert Append(dir, name, bytes, stamp)[1..] == Append(dir[1..], name, bytes, stamp);
    }
  }

  /** Cleanup leaves the current file's bytes alone. */
  lemma ContentKept(left: Directory, dir: Directory, current: Name)
    requires Shrunk(left, dir, current) && DistinctNames(dir) && !Unnamed(dir, current)
    ensures Content(left, current) == Content(dir, current)
  {
    var f :| f in dir && f.name == current;
    ContentOf(dir, f);
    ContentOf(left, f);
  }

  /** What a step from `a` to `r` has done to the files: `bytes` are under the current name,
      and every other file is as it was or gone. */
  ghost predicate StoredIn(a: Archive, r: Archive, bytes: Bytes) {
    && r.open && Content(r.dir, r.currentPath) == bytes
    && forall g :: g in r.dir && g.name != r.currentPath ==> g in a.dir
  }

  /** Appending to the current file, cleanup included. */
  lemma AppendedStores(a: Archive, o: ValidOptions, data: Bytes, d: Disk)
    requires FileInv(a, o) && Fits(a, o, |data|) && |data| <= o.maxRecordBytes && Healthy(d, |data|)
    ensures var r := Appended(a, o, data, d);
      r.currentPath == a.currentPath && StoredIn(a, r, Content(a.dir, a.currentPath) + data)
  {
    var b := Extended(a, data, d);
    assert data[..|data|] == data;
    AppendFacts(a.dir, a.currentPath, data, d.stamp);
    ContentAppended(a.dir, a.currentPath, data, d.stamp);
    AppendKeeps(a, o, data, |data|, d.stamp);
    AppendedCases(a, o, data, d);
    CleanupShrinks(b.dir, b.currentPath, o, d);
    CleanedSucceeds(b, o, d);
    ContentKept(Cleaned(b.dir, b.currentPath, o, d).0, b.dir, b.currentPath);
  }

  lemma RotatedStores(a: Archive, o: ValidOptions, now: int, d: Disk)
    requires FileInv(a, o) && Names(d) && d.createOk && d.closeOk && !HasName(a.dir, d.nameOf(a.fileSequence + 1))
    ensures var r := Rotated(a, now, d);
      && r.1 && r.0.currentPath == d.nameOf(a.fileSequence + 1) && StoredIn(a, r.0, [])
  {
    var name := d.nameOf(a.fileSequence + 1);
    var f := LogFile(name, [], d.stamp);
    assert Allocate(a.dir, d, a.fileSequence, a.fileSequence + NAME_ATTEMPTS) == (Some(name), a.fileSequence + 1);
    RotateKeeps(a, o, now, d);
    var r := Rotated(a, now, d).0;
    assert r.dir == a.dir + [f] && f in r.dir;
    ContentOf(r.dir, f);
  }

  /** A write that the disk serves puts exactly the truncated record at the end of the current
      file, or alone into a new one when the day has changed, no file is open or it would not
      fit; no other file is changed. */
  lemma WriteStores(a: Archive, o: ValidOptions, p: Bytes, now: int, d: Disk)
    requires FileInv(a, o) && Names(d) && !a.closed && !a.writeDisabled
    requires Healthy(d, o.maxRecordBytes) && !HasName(a.dir, d.nameOf(a.fileSequence + 1))
    ensures var r, data := Written(a, o, p, now, d), TruncateRecord(p, o.maxRecordBytes);
      var rotated := !a.open || a.currentDay != Day(now) || (a.currentSize > 0 && a.currentSize + |data| > o.maxFileBytes);
      && r.currentPath == (if rotated then d.nameOf(a.fileSequence + 1) else a.currentPath)
      && StoredIn(a, r, (if rotated then [] else Content(a.dir, a.currentPath)) + data)
  {
    var data := TruncateRecord(p, o.maxRecordBytes);
    if NeedsRotation(a, o, Day(now), |data|) {
      var b := Rotated(a, now, d).0;
      RotatedStores(a, o, now, d);
      RotateKeeps(a, o, now, d);
      AppendedStores(b, o, data, d);
    } else {
      AppendedStores(a, o, data, d);
    }
  }

  // --------------------------------------- what a write remembers and removes

  lemma ContentIsSize(a: Archive, o: ValidOptions)
    requires FileInv(a, o) && a.open
    ensures |Content(a.dir, a.currentPath)| == a.currentSize
  {
    var f :| f in a.dir && f.name == a.currentPath;
    ContentOf(a.dir, f);
  }

  /** The counter of bytes since the last cleanup after appending `length` bytes. */
  function Counted(gc: int, length: nat, every: int): int { if gc + length >= every then 0 else gc + length }

  /** What is remembered of an appended record. */
  ghost predicate Remembers(r: Archive, day: int, gc: int, length: nat, every: int) {
    && r.open && !r.writeDisabled && !r.closed
    && r.currentDay == day && r.currentSize == |Content(r.dir, r.currentPath)|
    && r.bytesSinceGC == Counted(gc, length, every)
  }

  lemma AppendedRemembers(a: Archive, o: ValidOptions, data: Bytes, d: Disk)
    requires FileInv(a, o) && BudgetInv(a, o) && Fits(a, o, |data|) && |data| <= o.maxRecordBytes && Healthy(d, |data|)
    requires !a.closed && !a.writeDisabled
    ensures Remembers(Appended(a, o, data, d), a.currentDay, a.bytesSinceGC, |data|, o.cleanupEveryBytes)
  {
    AppendedKeeps(a, o, data, d);
    AppendedServed(a, o, data, d);
    AppendedCases(a, o, data, d);
    CleanedSucceedsAfter(a, o, data, d);
    ContentIsSize(Appended(a, o, data, d), o);
  }

  lemma CleanedSucceedsAfter(a: Archive, o: ValidOptions, data: Bytes, d: Disk)
    requires FileInv(a, o) && Fits(a, o, |data|) && |data| <= o.maxRecordBytes && Healthy(d, |data|)
    ensures Cleaned(Extended(a, data, d).dir, a.currentPath, o, d).1
  {
    ExtendedKeeps(a, o, data, d);
    CleanedSucceeds(Extended(a, data, d), o, d);
  }

  /** A served write leaves the store open on a file of today, knows its exact size, and has
      counted the record towards the next cleanup, starting again when one was due. */
  lemma WriteRemembers(a: Archive, o: ValidOptions, p: Bytes, now: int, d: Disk)
    requires FileInv(a, o) && BudgetInv(a, o) && Names(d) && !a.closed && !a.writeDisabled
    requires Healthy(d, o.maxRecordBytes) && !HasName(a.dir, d.nameOf(a.fileSequence + 1))
    ensures var r := Written(a, o, p, now, d);
      && r.currentDay == now / 86400
      && Remembers(r, now / 86400, a.bytesSinceGC, |TruncateRecord(p, o.maxRecordBytes)|, o.cleanupEveryBytes)
  {
    var data := TruncateRecord(p, o.maxRecordBytes);
    if NeedsRotation(a, o, Day(now), |data|) {
      var b := Rotated(a, now, d).0;
      RotatedServed(a, o, now, d);
      RotateKeeps(a, o, now, d);
      BudgetFits(a, b, o);
      AppendedRemembers(b, o, data, d);
    } else {
      AppendedRemembers(a, o, data, d);
    }
  }

  /** A further write on the day of the current file goes into it if it fits. */
  lemma WriteBeside(b: Archive, o: ValidOptions, q: Bytes, later: int, e: Disk)
    requires FileInv(b, o) && Names(e) && b.open && !b.closed && !b.writeDisabled && b.currentDay == later / 86400
    requires Healthy(e, o.maxRecordBytes) && !HasName(b.dir, e.nameOf(b.fileSequence + 1))
    requires |Content(b.dir, b.currentPath)| + |TruncateRecord(q, o.maxRecordBytes)| <= o.maxFileBytes
    ensures var c := Written(b, o, q, later, e);
      c.currentPath == b.currentPath && Content(c.dir, c.currentPath) == Content(b.dir, b.currentPath) + TruncateRecord(q, o.maxRecordBytes)
  {
    ContentIsSize(b, o);
    WriteStores(b, o, q, later, e);
  }

  /** Whether a record of this length needs a new file now. */
  predicate NewFile(a: Archive, o: Options, now: int, length: nat) {
    !a.open || a.currentDay != now / 86400 || (a.currentSize > 0 && a.currentSize + length > o.maxFileBytes)
  }

  /** What a served write leaves for the next one. */
  ghost predicate LeftOpen(a: Archive, o: ValidOptions, data: Bytes, now: int, b: Archive) {
    && FileInv(b, o) && b.open && !b.closed && !b.writeDisabled && b.currentDay == now / 86400
    && Content(b.dir, b.currentPath) == (if NewFile(a, o, now, |data|) then [] else Content(a.dir, a.currentPath)) + data
  }

  lemma WriteLeavesOpen(a: Archive, o: ValidOptions, p: Bytes, now: int, d: Disk)
    requires FileInv(a, o) && BudgetInv(a, o) && Names(d) && !a.closed && !a.writeDisabled
    requires Healthy(d, o.maxRecordBytes) && !HasName(a.dir, d.nameOf(a.fileSequence + 1))
    ensures LeftOpen(a, o, TruncateRecord(p, o.maxRecordBytes), now, Written(a, o, p, now, d))
  {
    WriteRemembers(a, o, p, now, d);
    WriteStores(a, o, p, now, d);
    WriteKeeps(a, o, p, now, d);
  }

  /** Two served writes on one day whose truncated records fit into one file together leave
      one current file that ends with both records in order: the second does not rotate. */
  lemma TwoWritesOneFile(a: Archive, o: ValidOptions, p: Bytes, q: Bytes, now: int, later: int, d: Disk, e: Disk, b: Archive)
    requires FileInv(a, o) && BudgetInv(a, o) && Names(d) && Names(e) && !a.closed && !a.writeDisabled
    requires Healthy(d, o.maxRecordBytes) && !HasName(a.dir, d.nameOf(a.fileSequence + 1))
    requires b == Written(a, o, p, now, d) && Healthy(e, o.maxRecordBytes) && !HasName(b.dir, e.nameOf(b.fileSequence + 1))
    requires now / 86400 == later / 86400
    requires |Content(b.dir, b.currentPath)| + |TruncateRecord(q, o.maxRecordBytes)| <= o.maxFileBytes
    ensures var c, data := Written(b, o, q, later, e), TruncateRecord(p, o.maxRecordBytes);
      && c.currentPath == b.currentPath
      && Content(c.dir, c.currentPath) ==
           (if NewFile(a, o, now, |data|) then [] else Content(a.dir, a.currentPath)) + data + TruncateRecord(q, o.maxRecordBytes)
  {
    WriteLeavesOpen(a, o, p, now, d);
    WriteBeside(b, o, q, later, e);
  }

  /** The first two records of a day share a fresh file if they fit. */
  lemma FirstTwoOfTheDay(a: Archive, o: ValidOptions, p: Bytes, q: Bytes, now: int, later: int, d: Disk, e: Disk, b: Archive)
    requires FileInv(a, o) && BudgetInv(a, o) && Names(d) && Names(e) && !a.closed && !a.writeDisabled
    requires Healthy(d, o.maxRecordBytes) && !HasName(a.dir, d.nameOf(a.fileSequence + 1))
    requires b == Written(a, o, p, now, d) && Healthy(e, o.maxRecordBytes) && !HasName(b.dir, e.nameOf(b.fileSequence + 1))
    requires now / 86400 == later / 86400 && a.currentDay != now / 86400
    requires |TruncateRecord(p, o.maxRecordBytes)| + |TruncateRecord(q, o.maxRecordBytes)| <= o.maxFileBytes
    ensures var c := Written(b, o, q, later, e);
      c.currentPath == b.currentPath
      && Content(c.dir, c.currentPath) == TruncateRecord(p, o.maxRecordBytes) + TruncateRecord(q, o.maxRecordBytes)
  {
    WriteLeavesOpen(a, o, p, now, d);
    assert Content(b.dir, b.currentPath) == TruncateRecord(p, o.maxRecordBytes);
    WriteBeside(b, o, q, later, e);
  }

  /** What the age loop has kept after the files in `seen`. */
  ghost predicate Unexpired(left: Directory, dir: Directory, current: Name, cutoff: int, seen: seq<LogFile>) {
    forall g :: g in left <==> g in dir && (g.name == current || g.modTime >= cutoff || g !in seen)
  }

  lemma UnexpiredKept(left: Directory, dir: Directory, current: Name, cutoff: int, seen: seq<LogFile>, f: LogFile)
    requires Unexpired(left, dir, current, cutoff, seen) && (f.name == current || f.modTime >= cutoff)
    ensures Unexpired(left, dir, current, cutoff, seen + [f])
  {
    assert forall g :: g in seen + [f] <==> g in seen || g == f;
  }

  lemma UnexpiredRemoved(left: Directory, dir: Directory, current: Name, cutoff: int, seen: seq<LogFile>, f: LogFile)
    requires Unexpired(left, dir, current, cutoff, seen) && DistinctNames(dir) && f in dir && f.name != current && f.modTime < cutoff
    ensures Unexpired(Without(left, f.name), dir, current, cutoff, seen + [f])
  {
    assert forall g :: g in seen + [f] <==> g in seen || g == f;
    WithoutMembers(left, f.name);
    forall g | g in dir && g.name == f.name ensures g == f {
      SameNameSame(dir, g, f);
    }
  }

  lemma UnexpiredStep(left: Directory, dir: Directory, current: Name, cutoff: int, seen: seq<LogFile>, f: LogFile)
    requires Unexpired(left, dir, current, cutoff, seen) && DistinctNames(dir) && f in dir
    ensures Unexpired(if f.name == current || f.modTime >= cutoff then left else Without(left, f.name), dir, current, cutoff, seen + [f])
  {
    if f.name == current || f.modTime >= cutoff {
      UnexpiredKept(left, dir, current, cutoff, seen, f);
    } else {
      UnexpiredRemoved(left, dir, current, cutoff, seen, f);
    }
  }

  /** The age loop keeps exactly the current file and the files no older than the cutoff. */
  lemma {:induction false} ExpiredExactly(fs: seq<LogFile>, dir: Directory, current: Name, cutoff: int, n: nat)
    requires DistinctNames(dir) && (forall g :: g in fs ==> g in dir) && n <= |fs|
    ensures Unexpired(Expired(fs[..n], dir, current, cutoff, {}).0, dir, current, cutoff, fs[..n])
  {
    if n > 0 {
      ExpiredExactly(fs, dir, current, cutoff, n - 1);
      ExpiredShrinks(fs[..n - 1], dir, current, cutoff, {});
      ExpiredStep(fs, n - 1, dir, current, cutoff, {});
      UnexpiredStep(Expired(fs[..n - 1], dir, current, cutoff, {}).0, dir, current, cutoff, fs[..n - 1], fs[n - 1]);
      assert fs[..n] == fs[..n - 1] + [fs[n - 1]];
    }
  }

  lemma ExpiredAll(fs: seq<LogFile>, dir: Directory, current: Name, cutoff: int)
    requires DistinctNames(dir) && (forall g :: g in fs ==> g in dir)
    ensures Unexpired(Expired(fs, dir, current, cutoff, {}).0, dir, current, cutoff, fs)
  {
    assert fs[..|fs|] == fs;
    ExpiredExactly(fs, dir, current, cutoff, |fs|);
  }

  lemma {:induction false} SameNameSame(dir: Directory, f: LogFile, g: LogFile)
    requires DistinctNames(dir) && f in dir && g in dir && f.name == g.name
    ensures f == g
  {
    ContentOf(dir, f);
    ContentOf(dir, g);
    assert dir == [dir[0]] + dir[1..];
    if f != dir[0] && g != dir[0] {
      SameNameSame(dir[1..], f, g);
    }
  }

  /** The files a cleanup keeps for their age: the current one and those no older than the
      maximum age. */
  ghost predicate YoungOf(left: Directory, dir: Directory, current: Name, o: Options, now: int) {
    && DistinctNames(left)
    && forall g :: g in left <==> g in dir && (g.name == current || g.modTime >= now - o.maxAge)
  }

  lemma YoungFrom(left: Directory, dir: Directory, current: Name, o: Options, now: int, fs: seq<LogFile>)
    requires DistinctNames(left) && Unexpired(left, dir, current, now - o.maxAge, fs) && forall g :: g in fs <==> g in dir
    ensures YoungOf(left, dir, current, o, now)
  {
  }

  lemma ExpiredDistinct(fs: seq<LogFile>, dir: Directory, current: Name, cutoff: int)
    requires DistinctNames(dir)
    ensures Expired(fs, dir, current, cutoff, {}).1 && DistinctNames(Expired(fs, dir, current, cutoff, {}).0)
  {
    ExpiredShrinks(fs, dir, current, cutoff, {});
  }

  lemma AgedListing(fs: seq<LogFile>, dir: Directory, current: Name, o: Options, now: int) returns (left: Directory)
    requires DistinctNames(dir) && forall g :: g in fs <==> g in dir
    ensures Expired(fs, dir, current, now - o.maxAge, {}) == (left, true)
    ensures YoungOf(left, dir, current, o, now)
  {
    left := Expired(fs, dir, current, now - o.maxAge, {}).0;
    ExpiredAll(fs, dir, current, now - o.maxAge);
    ExpiredDistinct(fs, dir, current, now - o.maxAge);
    YoungFrom(left, dir, current, o, now, fs);
  }

  lemma AgedExactly(dir: Directory, current: Name, o: Options, now: int) returns (left: Directory)
    requires DistinctNames(dir)
    ensures Expired(Listing(dir), dir, current, now - o.maxAge, {}) == (left, true)
    ensures YoungOf(left, dir, current, o, now)
  {
    ListingDistinct(dir);
    left := AgedListing(Listing(dir), dir, current, o, now);
  }

  /** A cleanup on a disk that serves it first removes exactly the files older than the maximum
      age, and then, only if the rest is above the total budget, the shortest run of oldest
      files that brings it down; the current file always stays. */
  lemma CleanedExactly(dir: Directory, current: Name, o: ValidOptions, d: Disk) returns (young: Directory, k: nat)
    requires DistinctNames(dir) && d.firstListOk && d.secondListOk && d.stuck == {}
    requires CurrentWithin(dir, current, o.maxFileBytes)
    ensures YoungOf(young, dir, current, o, d.cleanupNow) && k <= |Listing(young)|
    ensures Cleaned(dir, current, o, d) == (Removing(young, Listing(young)[..k], current), true)
    ensures TotalBytes(Removing(young, Listing(young)[..k], current)) <= o.maxTotalBytes
    ensures forall j :: 0 <= j < k ==> TotalBytes(Removing(young, Listing(young)[..j], current)) > o.maxTotalBytes
  {
    young := AgedExactly(dir, current, o, d.cleanupNow);
    HardLimitErrorUnreachable(dir, current, o, d);
    CleanedCases(dir, current, o, d);
    k := PrunedExactly(young, current, o, d);
  }

  lemma PrunedExactly(dir: Directory, current: Name, o: ValidOptions, d: Disk) returns (k: nat)
    requires DistinctNames(dir) && d.stuck == {} && PrunedToSize(dir, current, o, d).1
    ensures k <= |Listing(dir)| && PrunedToSize(dir, current, o, d).0 == Removing(dir, Listing(dir)[..k], current)
    ensures TotalBytes(Removing(dir, Listing(dir)[..k], current)) <= o.maxTotalBytes
    ensures forall j :: 0 <= j < k ==> TotalBytes(Removing(dir, Listing(dir)[..j], current)) > o.maxTotalBytes
  {
    if TotalBytes(dir) <= o.maxTotalBytes {
      k := 0;
      assert Listing(dir)[..0] == [];
    } else {
      ListingSorted(dir);
      TwoPassIsSweep(Listing(dir), Begin(dir), o.maxTotalBytes, current, {}, d.cleanupNow - o.preferredMinAge);
      k := SweepIsShortestPrefix(dir, o.maxTotalBytes, current);
    }
  }

  // ------------------------------------------------- when writes are disabled

  /** What makes a rotation fail: no free name among the next thousand, a file that cannot be
      created, or an old file that does not close. */
  ghost predicate RotationFails(a: Archive, d: Disk) {
    || (forall k :: a.fileSequence < k <= a.fileSequence + 1000 ==> HasName(a.dir, d.nameOf(k)))
    || !d.createOk
    || (a.open && !d.closeOk)
  }

  /** The first free name, and why there is none. */
  lemma {:induction false} AllocateFirst(dir: Directory, d: Disk, sequence: nat, last: nat)
    requires sequence <= last
    ensures var r := Allocate(dir, d, sequence, last);
      && sequence <= r.1 <= last
      && (forall k :: sequence < k < r.1 ==> HasName(dir, d.nameOf(k)))
      && (r.0.Some? ==> r.0.value == d.nameOf(r.1) && sequence < r.1 && !HasName(dir, d.nameOf(r.1)) && d.createOk)
      && (r.0 == None ==> (forall k :: sequence < k <= last ==> HasName(dir, d.nameOf(k))) || !d.createOk)
    decreases last - sequence
  {
    if sequence < last && HasName(dir, d.nameOf(sequence + 1)) {
      AllocateFirst(dir, d, sequence + 1, last);
    }
  }

  /** Rotation fails for these reasons only, and then leaves the store to be disabled. */
  lemma RotationExactly(a: Archive, now: int, d: Disk)
    ensures Rotated(a, now, d).1 <==> !RotationFails(a, d)
    ensures Rotated(a, now, d).1 ==> Rotated(a, now, d).0.currentDay == now / 86400
  {
    AllocateFirst(a.dir, d, a.fileSequence, a.fileSequence + NAME_ATTEMPTS);
  }

  /** The reasons for which an append ends with writes disabled: an error or a short write, or
      a cleanup that was due and failed. */
  ghost predicate AppendFails(b: Archive, o: Options, data: Bytes, d: Disk) {
    || d.writeError || d.written < |data|
    || (b.bytesSinceGC + |data| >= o.cleanupEveryBytes && !Cleaned(Extended(b, data, d).dir, b.currentPath, o, d).1)
  }

  lemma AppendDisablesExactly(b: Archive, o: Options, data: Bytes, d: Disk)
    requires b.open && !b.writeDisabled
    ensures Appended(b, o, data, d).writeDisabled <==> AppendFails(b, o, data, d)
    ensures Appended(b, o, data, d).open <==> !AppendFails(b, o, data, d)
  {
    AppendedCases(b, o, data, d);
  }

  /** A write turns later writes off exactly when a rotation it needed failed, or its append
      did; and the file is closed then and only then. */
  lemma WriteDisablesExactly(a: Archive, o: ValidOptions, p: Bytes, now: int, d: Disk)
    requires FileInv(a, o) && Names(d) && !a.closed && !a.writeDisabled
    ensures var data, r := TruncateRecord(p, o.maxRecordBytes), Written(a, o, p, now, d);
      var rotates := !a.open || a.currentDay != now / 86400 || (a.currentSize > 0 && a.currentSize + |data| > o.maxFileBytes);
      && (r.writeDisabled <==> if rotates then RotationFails(a, d) || AppendFails(Rotated(a, now, d).0, o, data, d) else AppendFails(a, o, data, d))
      && (r.open <==> !r.writeDisabled)
  {
    var data := TruncateRecord(p, o.maxRecordBytes);
    if NeedsRotation(a, o, Day(now), |data|) {
      RotationExactly(a, now, d);
      RotateKeeps(a, o, now, d);
      if Rotated(a, now, d).1 {
        AppendDisablesExactly(Rotated(a, now, d).0, o, data, d);
      }
    } else {
      AppendDisablesExactly(a, o, data, d);
    }
  }

  // ------------------------------------- when a write breaks the total budget

  /** The archive's budget after any write: the total budget plus one cleanup period. */
  predicate WithinBudget(dir: Directory, o: Options) { TotalBytes(dir) < o.maxTotalBytes + o.cleanupEveryBytes }

  lemma {:induction false} AppendTotal(dir: Directory, name: Name, bytes: Bytes, stamp: int)
    requires !Unnamed(dir, name)
    ensures TotalBytes(Append(dir, name, bytes, stamp)) == TotalBytes(dir) + |bytes|
  {
    assert dir == [dir[0]] + dir[1..];
    if dir[0].name != name {
      AppendTotal(dir[1..], name, bytes, stamp);
      assert Append(dir, name, bytes, stamp)[1..] == Append(dir[1..], name, bytes, stamp);
    }
  }

  lemma {:induction false} LongestName(dir: Directory) returns (n: nat)
    ensures forall f :: f in dir ==> |f.name| < n
  {
    if dir == [] {
      n := 0;
    } else {
      n := LongestName(dir[1..]);
      n := if |dir[0].name| < n then n else |dir[0].name| + 1;
      assert dir == [dir[0]] + dir[1..];
    }
  }

  function Repeated(n: nat): Name { seq(n, _ => 'x') }

  /** Whatever the directory, the disk can offer a name that is free. */
  lemma FreeName(dir: Directory) returns (name: Name)
    ensures name != "" && !HasName(dir, name)
  {
    var n := LongestName(dir);
    name := Repeated(n + 1);
    forall i | 0 <= i < |dir| ensures dir[i].name != name {
      assert dir[i] in dir;
    }
  }

  /** A disk on which everything works but the write, which puts the whole record into the
      file and then reports an error. */
  function Refusing(name: Name, length: nat): Disk {
    Disk(_ => name, true, true, length, true, 0, true, true, {}, 0)
  }

  /** On such a disk a write leaves the whole record behind and disables writes. */
  lemma RefusedWrite(a: Archive, o: ValidOptions, p: Bytes, now: int, name: Name)
    requires FileInv(a, o) && !a.closed && !a.writeDisabled && name != "" && !HasName(a.dir, name)
    ensures var data := TruncateRecord(p, o.maxRecordBytes);
      var r := Written(a, o, p, now, Refusing(name, |data|));
      r.writeDisabled && TotalBytes(r.dir) == TotalBytes(a.dir) + |data|
  {
    var data := TruncateRecord(p, o.maxRecordBytes);
    var d := Refusing(name, |data|);
    assert data[..|data|] == data;
    if NeedsRotation(a, o, Day(now), |data|) {
      assert Allocate(a.dir, d, a.fileSequence, a.fileSequence + NAME_ATTEMPTS) == (Some(name), a.fileSequence + 1);
      RotateKeeps(a, o, now, d);
      var b := Rotated(a, now, d).0;
      AppendTotal(b.dir, b.currentPath, data, 0);
    } else {
      AppendTotal(a.dir, a.currentPath, data, 0);
    }
  }

  /** A write stays within the budget whatever the disk does if and only if the bytes there
      are and the record together do. */
  lemma BudgetExactly(a: Archive, o: ValidOptions, p: Bytes, now: int)
    requires FileInv(a, o) && BudgetInv(a, o) && !a.closed && !a.writeDisabled
    ensures (forall d :: Names(d) ==> WithinBudget(Written(a, o, p, now, d).dir, o)) <==>
      TotalBytes(a.dir) + |TruncateRecord(p, o.maxRecordBytes)| < o.maxTotalBytes + o.cleanupEveryBytes
  {
    var length := |TruncateRecord(p, o.maxRecordBytes)|;
    if TotalBytes(a.dir) + length < o.maxTotalBytes + o.cleanupEveryBytes {
      forall d | Names(d) ensures WithinBudget(Written(a, o, p, now, d).dir, o) {
        WriteKeeps(a, o, p, now, d);
      }
    } else {
      var name := FreeName(a.dir);
      RefusedWrite(a, o, p, now, name);
      assert Names(Refusing(name, length));
      assert !WithinBudget(Written(a, o, p, now, Refusing(name, length)).dir, o);
    }
  }

  // ----------------------------------------------------- whole histories

  /** A store that has no file yet. */
  function Unopened(dir: Directory): Archive { Archive(dir, false, "", 0, 0, 0, 0, false, false, {}) }

  /** Open over the files found: a cleanup with no current file, then a first rotation. */
  function Opened(found: Directory, o: ValidOptions, now: int, d: Disk): Option<Archive> {
    var c := Cleaned(found, "", o, d);
    var r := Rotated(Unopened(c.0), now, d);
    if c.1 && r.1 then Some(r.0) else None
  }

  datatype OpenError = NoDirectory | BadOptions(complaint: string) | NotMade | NotPruned | NotCreated

  /** The first thing that keeps Open from returning a store; `made` says whether the
      directory could be resolved, made and given its permissions. */
  function Unopenable(path: string, o: Options, made: bool, found: Directory, now: int, d: Disk): Option<OpenError> {
    if Text.TrimSpace(path) == "" then Some(NoDirectory)
    else if ValidateOptions(o).Some? then Some(BadOptions(ValidateOptions(o).value))
    else if !made then Some(NotMade)
    else if !Cleaned(found, "", o, d).1 then Some(NotPruned)
    else if Opened(found, o, now, d) == None then Some(NotCreated)
    else None
  }

  method Open(path: string, o: Options, made: bool, found: Directory, now: int, d: Disk) returns (store: Store?, error: Option<OpenError>)
    ensures error == Unopenable(path, o, made, found, now, d) && (store == null <==> error.Some?)
    ensures store != null ==> fresh(store) && store.opts == o && Opened(found, store.opts, now, d) == Some(store.View())
  {
    if Text.TrimSpace(path) == "" {
      return null, Some(NoDirectory);
    }
    var complaint := ValidateOptions(o);
    if complaint.Some? {
      return null, Some(BadOptions(complaint.value));
    }
    if !made {
      return null, Some(NotMade);
    }
    var s := new Store(o, found);
    var cleaned := s.Cleanup(d);
    if !cleaned {
      return null, Some(NotPruned);
    }
    var rotated := s.RotateLocked(now, d);
    if !rotated {
      return null, Some(NotCreated);
    }
    return s, None;
  }

  datatype Call = Call(record: Bytes, now: int, disk: Disk)

  function WriteAll(a: Archive, o: ValidOptions, calls: seq<Call>): Archive {
    if calls == [] then a
    else
      var last := calls[|calls| - 1];
      Written(WriteAll(a, o, calls[..|calls| - 1]), o, last.record, last.now, last.disk)
  }

  lemma UnopenedKeeps(dir: Directory, o: ValidOptions)
    requires DistinctNames(dir)
    ensures FileInv(Unopened(dir), o)
  {
  }

  lemma FirstRotation(dir: Directory, o: ValidOptions, now: int, d: Disk)
    requires DistinctNames(dir) && Names(d) && TotalBytes(dir) <= o.maxTotalBytes
    ensures var a := Rotated(Unopened(dir), now, d).0; FileInv(a, o) && BudgetInv(a, o) && !a.writeDisabled
  {
    UnopenedKeeps(dir, o);
    RotateKeeps(Unopened(dir), o, now, d);
  }

  lemma OpenKeeps(found: Directory, o: ValidOptions, now: int, d: Disk)
    requires DistinctNames(found) && Unnamed(found, "") && Names(d)
    ensures var r := Opened(found, o, now, d);
      r.Some? ==> FileInv(r.value, o) && BudgetInv(r.value, o) && !r.value.writeDisabled
  {
    CleanupShrinks(found, "", o, d);
    if Opened(found, o, now, d).Some? {
      FirstRotation(Cleaned(found, "", o, d).0, o, now, d);
    }
  }

  /** On a disk that serves it, opening over any files with valid options succeeds. */
  lemma OpenSucceeds(path: string, o: ValidOptions, found: Directory, now: int, d: Disk)
    requires DistinctNames(found) && Unnamed(found, "") && Text.TrimSpace(path) != ""
    requires Names(d) && Healthy(d, 0) && !HasName(found, d.nameOf(1))
    ensures Unopenable(path, o, true, found, now, d) == None
  {
    CleanupShrinks(found, "", o, d);
    HardLimitErrorUnreachable(found, "", o, d);
    var left := Cleaned(found, "", o, d).0;
    forall i | 0 <= i < |left| ensures left[i].name != d.nameOf(1) {
      assert left[i] in found;
    }
    UnopenedKeeps(left, o);
    RotatedStores(Unopened(left), o, now, d);
  }

  /** What any sequence of writes keeps. */
  ghost predicate WriteInv(a: Archive, o: ValidOptions) {
    && FileInv(a, o)
    && (a.writeDisabled || BudgetInv(a, o))
    && TotalBytes(a.dir) < o.maxTotalBytes + o.cleanupEveryBytes + o.maxRecordBytes
  }

  lemma {:induction false} WritesKeep(a: Archive, o: ValidOptions, calls: seq<Call>)
    requires WriteInv(a, o) && forall c :: c in calls ==> Names(c.disk)
    ensures WriteInv(WriteAll(a, o, calls), o)
  {
    if calls != [] {
      var front, last := calls[..|calls| - 1], calls[|calls| - 1];
      WritesKeep(a, o, front);
      WriteKeeps(WriteAll(a, o, front), o, last.record, last.now, last.disk);
    }
  }

  /** For every directory found, every accepted options and every sequence of writes by one
      caller, whatever the disk does: each file the store made stays within the file
      budget; the archive stays below the total budget plus one cleanup period and one
      record; and while writes are enabled it stays within the total budget plus the bytes
      since the last cleanup, hence below the total budget plus one cleanup period. */
  lemma BudgetsHold(found: Directory, o: ValidOptions, now: int, d: Disk, calls: seq<Call>)
    requires DistinctNames(found) && Unnamed(found, "") && Names(d) && Opened(found, o, now, d).Some?
    requires forall c :: c in calls ==> Names(c.disk)
    ensures var a := WriteAll(Opened(found, o, now, d).value, o, calls);
      && (forall f :: f in a.dir && f.name in a.created ==> |f.data| <= o.maxFileBytes)
      && TotalBytes(a.dir) < o.maxTotalBytes + o.cleanupEveryBytes + o.maxRecordBytes
      && (!a.writeDisabled ==> TotalBytes(a.dir) <= o.maxTotalBytes + a.bytesSinceGC < o.maxTotalBytes + o.cleanupEveryBytes)
  {
    OpenKeeps(found, o, now, d);
    WritesKeep(Opened(found, o, now, d).value, o, calls);
  }

  /** A disk that offers one name and on which at most cleanup's first listing fails. */
  function Offering(name: Name, listOk: bool): Disk { Disk(_ => name, true, true, 2, false, 0, listOk, true, {}, 0) }

  const TIGHT: Options := Options(1, 0, 2, 2, 2, 1)

  /** A store whose one file fills the total budget. */
  function Filled(): Archive { Archive([LogFile("a", [0, 0], 0)], true, "a", 0, 2, 0, 1, false, false, {"a"}) }

  lemma FirstFile()
    ensures Opened([], TIGHT, 0, Offering("a", true)) == Some(Archive([LogFile("a", [], 0)], true, "a", 0, 0, 0, 1, false, false, {"a"}))
  {
    var d, none: Directory := Offering("a", true), [];
    assert Cleaned(none, "", TIGHT, d) == (none, true);
    assert Allocate(none, d, 0, NAME_ATTEMPTS) == (Some("a"), 1);
    assert none + [LogFile("a", [], 0)] == [LogFile("a", [], 0)];
    assert Unopened(none).created + {"a"} == {"a"};
  }

  lemma ListingOne(f: LogFile)
    ensures Listing([f]) == [f] && TotalBytes([f]) == |f.data|
  {
    assert [f][1..] == [];
  }

  /** Cleanup of a single file that is current and fits. */
  lemma NothingToClean(f: LogFile, o: ValidOptions, d: Disk)
    requires d.firstListOk && d.secondListOk && |f.data| <= o.maxTotalBytes
    ensures Cleaned([f], f.name, o, d) == ([f], true)
  {
    ListingOne(f);
    assert [f][..0] == [];
    assert Expired([f], [f], f.name, d.cleanupNow - o.maxAge, d.stuck) == ([f], true);
  }

  lemma FileFilled()
    ensures Written(Archive([LogFile("a", [], 0)], true, "a", 0, 0, 0, 1, false, false, {"a"}), TIGHT, [0, 0], 0, Offering("a", true)) == Filled()
  {
    var a := Archive([LogFile("a", [], 0)], true, "a", 0, 0, 0, 1, false, false, {"a"});
    var data: Bytes := [0, 0];
    var f := LogFile("a", data, 0);
    assert data[..2] == data && [] + data == data;
    assert Append(a.dir, "a", data, 0) == [f];
    NothingToClean(f, TIGHT, Offering("a", true));
  }

  lemma FilledOverrun()
    ensures var a := Written(Filled(), TIGHT, [0], 0, Offering("b", false));
      a.writeDisabled && TotalBytes(a.dir) == 3
  {
    var a, d := Filled(), Offering("b", false);
    var data: Bytes := [0];
    var full, f := LogFile("a", [0, 0], 0), LogFile("b", data, 0);
    assert !HasName(a.dir, "b");
    assert Allocate(a.dir, d, 1, 1 + NAME_ATTEMPTS) == (Some("b"), 2);
    var b := Rotated(a, 0, d).0;
    assert b.dir == [full, LogFile("b", [], 0)];
    assert data[..1] == data && [] + data == data;
    assert Append(b.dir, "b", data, 0) == [full, f] by {
      assert b.dir[1..] == [LogFile("b", [], 0)];
      assert [full] + [f] == [full, f];
    }
    assert [full, f][1..] == [f];
    ListingOne(f);
  }

  /** A reachable store that is exactly at its total budget, and a record that makes cleanup
      due on a disk whose first listing fails: the write ends with the archive at the total
      budget plus one cleanup period, and with writes disabled. */
  lemma BudgetBroken()
    ensures ValidateOptions(TIGHT) == None
    ensures Opened([], TIGHT, 0, Offering("a", true)).Some?
    ensures var a := WriteAll(Opened([], TIGHT, 0, Offering("a", true)).value, TIGHT, [Call([0, 0], 0, Offering("a", true))]);
      && !a.writeDisabled && TotalBytes(a.dir) == TIGHT.maxTotalBytes + a.bytesSinceGC
      && var r := Written(a, TIGHT, [0], 0, Offering("b", false));
      r.writeDisabled && !WithinBudget(r.dir, TIGHT)
  {
    FirstFile();
    FileFilled();
    FilledOverrun();
    ListingOne(LogFile("a", [0, 0], 0));
    var calls := [Call([0, 0], 0, Offering("a", true))];
    assert calls[..0] == [];
  }

  /** The disk serves one call, the first choice of name being free. */
  predicate Served(a: Archive, o: Options, c: Call) {
    Healthy(c.disk, if o.maxRecordBytes >= 0 then o.maxRecordBytes else 0) && !HasName(a.dir, c.disk.nameOf(a.fileSequence + 1))
  }

  ghost predicate AllServed(a: Archive, o: ValidOptions, calls: seq<Call>) {
    calls == [] ||
    (AllServed(a, o, calls[..|calls| - 1]) && Served(WriteAll(a, o, calls[..|calls| - 1]), o, calls[|calls| - 1]))
  }

  lemma ServedStep(a: Archive, o: ValidOptions, c: Call)
    requires FileInv(a, o) && BudgetInv(a, o) && !a.writeDisabled && Served(a, o, c) && Names(c.disk)
    ensures var r := Written(a, o, c.record, c.now, c.disk); !r.writeDisabled && BudgetInv(r, o)
  {
    WriteKeeps(a, o, c.record, c.now, c.disk);
    WriteServed(a, o, c.record, c.now, c.disk);
  }

  /** When the disk serves every call writes are never disabled: no error path is taken, and
      in particular not the one of the hard limit. */
  lemma {:induction false} ServedNeverDisabled(a: Archive, o: ValidOptions, calls: seq<Call>)
    requires WriteInv(a, o) && !a.writeDisabled && AllServed(a, o, calls)
    requires forall c :: c in calls ==> Names(c.disk)
    ensures !WriteAll(a, o, calls).writeDisabled && BudgetInv(WriteAll(a, o, calls), o)
  {
    if calls != [] {
      var front, last := calls[..|calls| - 1], calls[|calls| - 1];
      ServedNeverDisabled(a, o, front);
      WritesKeep(a, o, front);
      ServedStep(WriteAll(a, o, front), o, last);
    }
  }

  /** One turn of the age loop. */
  lemma ExpiredStep(fs: seq<LogFile>, i: nat, dir: Directory, current: Name, cutoff: int, stuck: set<Name>)
    requires i < |fs| && Expired(fs[..i], dir, current, cutoff, stuck).1
    ensures var rest := Expired(fs[..i], dir, current, cutoff, stuck).0;
      Expired(fs[..i + 1], dir, current, cutoff, stuck) ==
        if fs[i].name == current || fs[i].modTime >= cutoff then (rest, true)
        else if fs[i].name in stuck then (rest, false)
        else (Without(rest, fs[i].name), true)
  {
    assert fs[..i + 1][..i] == fs[..i];
  }

  /** After a failed removal the age loop changes nothing more. */
  lemma {:induction false} FailedFrom(fs: seq<LogFile>, dir: Directory, current: Name, cutoff: int, stuck: set<Name>, n: nat)
    requires n <= |fs| && !Expired(fs[..n], dir, current, cutoff, stuck).1
    ensures Expired(fs, dir, current, cutoff, stuck) == Expired(fs[..n], dir, current, cutoff, stuck)
    decreases |fs| - n
  {
    if n == |fs| {
      assert fs[..n] == fs;
    } else {
      assert fs[..n + 1][..n] == fs[..n];
      FailedFrom(fs, dir, current, cutoff, stuck, n + 1);
    }
  }

  lemma {:induction false} TotalSnoc(fs: seq<LogFile>, f: LogFile)
    ensures TotalBytes(fs + [f]) == TotalBytes(fs) + |f.data|
  {
    if fs == [] {
      assert fs + [f] == [f];
    } else {
      assert (fs + [f])[1..] == fs[1..] + [f];
      TotalSnoc(fs[1..], f);
    }
  }
}
