/**
  The log archive shared by writers, cleanups, exports and closers: a readers-writer lock
  over the directory (archiveMu) and a mutex over the current file (mu).

  Any number of threads run interleaved; a step is one lock operation, one critical section
  under mu, one file removal or one chunk read. Which file a write goes to, when it
  rotates, how much of a record is written and which files a cleanup removes are free, so
  the results hold whatever the policy.
 */
module ArchiveExport {
  import opened Optional
  import opened Records

  type Name = string
  type Tid = nat

  /** What became of one record handed to Write: its place in a file, or nothing. */
  datatype Fate = Stored(name: Name, offset: nat, data: Bytes) | Skipped(data: Bytes)

  /** The directory, the open file, the flags, and the histories: the fates of all records
      in order, and the names removed and ever made. */
  datatype Shared = Shared(dir: map<Name, Bytes>, file: Option<Name>, closed: bool, writeDisabled: bool,
                           log: seq<Fate>, removed: set<Name>, made: set<Name>)

  /** archiveMu as Go has it: `claim` is the goroutine that has announced or holds the
      exclusive lock, and new readers wait while there is one. */
  datatype Locks = Locks(readers: set<Tid>, claim: Option<Tid>, mu: Option<Tid>)

  /** A snapshot: the names in listing order, the bytes each held, how many records had been
      given to Write, and which names had been removed by then. */
  datatype Snapshot = Snapshot(names: seq<Name>, bytes: map<Name, Bytes>, records: nat, gone: set<Name>)

  datatype Thread =
    // Write
    | WriteStart(data: Bytes) | WriteShared(data: Bytes) | WriteInside(data: Bytes) | WriteReady(data: Bytes)
    | WriteLeaving(cleanup: bool) | WriteUnlocked(cleanup: bool)
    // cleanup
    | CleanStart | CleanClaimed | CleanHeld | CleanPeek | CleanPruning(current: Option<Name>)
    // disableWrites and Close
    | ShutStart(close: bool) | ShutClaimed(close: bool) | ShutHeld(close: bool) | ShutInside(close: bool) | ShutLeaving
    // Export
    | ExportStart | ExportShared | ExportInside
    | ExportCopying(snap: Snapshot, out: seq<Bytes>, part: Bytes)
    | ExportDone(snap: Snapshot, out: seq<Bytes>, ok: bool)
    | Done

  datatype State = State(d: Shared, k: Locks, threads: map<Tid, Thread>)

  datatype Label =
    | Arrive(t: Tid, q: Thread)
    | LockShared(t: Tid) | UnlockShared(t: Tid)
    | Claim(t: Tid) | Hold(t: Tid) | UnlockExclusive(t: Tid, failed: bool)
    | LockMu(t: Tid)
    | SkipWrite(t: Tid) | Rotate(t: Tid, name: Name, closed: bool) | FailRotate(t: Tid) | Reuse(t: Tid)
    | AppendRecord(t: Tid, written: nat, failed: bool, cleanup: bool)
    | UnlockWrite(t: Tid)
    | Peek(t: Tid) | Remove(t: Tid, name: Name)
    | Shut(t: Tid)
    | Snap(t: Tid, names: seq<Name>) | Read(t: Tid, n: nat) | NextFile(t: Tid) | FinishExport(t: Tid) | AbortExport(t: Tid)

  /** A store as Open leaves it: whatever files were found, and an open one among them. */
  ghost predicate Starts(s: State) {
    && s.d == Shared(s.d.dir, s.d.file, false, false, [], {}, s.d.dir.Keys)
    && (s.d.file.Some? ==> s.d.file.value in s.d.dir)
    && s.k == Locks({}, None, None) && s.threads == map[]
  }

  predicate Startable(q: Thread) { q.WriteStart? || q.CleanStart? || q.ShutStart? || q.ExportStart? }

  predicate HoldsShared(q: Thread) {
    q.WriteShared? || q.WriteInside? || q.WriteReady? || q.WriteLeaving? || q.WriteUnlocked? ||
    q.ExportShared? || q.ExportInside? || q.ExportCopying?
  }

  predicate HasClaim(q: Thread) {
    q.CleanClaimed? || q.ShutClaimed? || HoldsExclusive(q)
  }

  predicate HoldsExclusive(q: Thread) {
    q.CleanHeld? || q.CleanPeek? || q.CleanPruning? || q.ShutHeld? || q.ShutInside? || q.ShutLeaving?
  }

  predicate HoldsMu(q: Thread) {
    q.WriteInside? || q.WriteReady? || q.WriteLeaving? || q.CleanPeek? || q.ShutInside? || q.ExportInside?
  }

  predicate IsListing(names: seq<Name>, dir: map<Name, Bytes>) {
    (forall n :: n in names ==> n in dir) && (forall n :: n in dir ==> n in names) && (forall i, j :: 0 <= i < j < |names| ==> names[i] != names[j])
  }

  predicate CanMove(d: Shared, k: Locks, q: Thread, l: Label) {
    match l
    case Arrive(_, _) => false
    case LockShared(_) => (q.WriteStart? || q.ExportStart?) && k.claim == None
    case UnlockShared(_) => q.WriteUnlocked?
    case Claim(_) => (q.CleanStart? || q.ShutStart?) && k.claim == None
    case Hold(_) => (q.CleanClaimed? || q.ShutClaimed?) && k.readers == {}
    case UnlockExclusive(_, _) => q.CleanPruning? || q.ShutLeaving?
    case LockMu(_) => (q.WriteShared? || q.CleanHeld? || q.ShutHeld? || q.ExportShared?) && k.mu == None
    case SkipWrite(_) => q.WriteInside? && (d.closed || d.writeDisabled)
    case Rotate(_, name, _) => q.WriteInside? && !d.closed && !d.writeDisabled && name !in d.dir && name !in d.made
    case FailRotate(_) => q.WriteInside? && !d.closed && !d.writeDisabled
    case Reuse(_) => q.WriteInside? && !d.closed && !d.writeDisabled && d.file.Some?
    case AppendRecord(_, written, _, _) => q.WriteReady? && d.file.Some? && d.file.value in d.dir && written <= |q.data|
    case UnlockWrite(_) => q.WriteLeaving?
    case Peek(_) => q.CleanPeek?
    case Remove(_, name) => q.CleanPruning? && name in d.dir && q.current != Some(name)
    case Shut(_) => q.ShutInside?
    case Snap(_, names) => q.ExportInside? && IsListing(names, d.dir)
    case Read(_, n) =>
      && q.ExportCopying? && |q.out| < |q.snap.names|
      && var name := q.snap.names[|q.out|];
      // the file can be opened, and the read stays below the snapshot's size
      name in d.dir && name in q.snap.bytes && 0 < n && |q.part| + n <= |q.snap.bytes[name]| && |q.part| + n <= |d.dir[name]|
    case NextFile(_) =>
      && q.ExportCopying? && |q.out| < |q.snap.names|
      && var name := q.snap.names[|q.out|];
      name in q.snap.bytes && |q.part| == |q.snap.bytes[name]|
    case FinishExport(_) => q.ExportCopying? && |q.out| == |q.snap.names|
    case AbortExport(_) => q.ExportShared? || q.ExportCopying?
  }

  datatype Move = Move(d: Shared, k: Locks, q: Thread)

  function Moved(d: Shared, k: Locks, q: Thread, l: Label): Move
    requires CanMove(d, k, q, l)
  {
    match l
    case LockShared(t) =>
      Move(d, k.(readers := k.readers + {t}), if q.WriteStart? then WriteShared(q.data) else ExportShared)
    case UnlockShared(t) => Move(d, k.(readers := k.readers - {t}), if q.cleanup then CleanStart else Done)
    case Claim(t) => Move(d, k.(claim := Some(t)), if q.CleanStart? then CleanClaimed else ShutClaimed(q.close))
    case Hold(_) => Move(d, k, if q.CleanClaimed? then CleanHeld else ShutHeld(q.close))
    case UnlockExclusive(_, failed) =>
      // a failed cleanup is followed by disableWrites
      Move(d, k.(claim := None), if q.CleanPruning? && failed then ShutStart(false) else Done)
    case LockMu(t) =>
      Move(d, k.(mu := Some(t)),
           if q.WriteShared? then WriteInside(q.data) else if q.CleanHeld? then CleanPeek
           else if q.ShutHeld? then ShutInside(q.close) else ExportInside)
    case SkipWrite(_) => Move(d.(log := d.log + [Skipped(q.data)]), k, WriteLeaving(false))
    case Rotate(_, name, closed) =>
      // a failure to close the old file disables writes with the new file already made
      var e := d.(dir := d.dir[name := []], made := d.made + {name});
      if closed then Move(e.(file := Some(name)), k, WriteReady(q.data))
      else Move(e.(file := None, writeDisabled := true, log := d.log + [Skipped(q.data)]), k, WriteLeaving(false))
    case FailRotate(_) =>
      Move(d.(writeDisabled := true, file := None, log := d.log + [Skipped(q.data)]), k, WriteLeaving(false))
    case Reuse(_) => Move(d, k, WriteReady(q.data))
    case AppendRecord(_, written, failed, cleanup) =>
      var name := d.file.value;
      var dir := d.dir[name := d.dir[name] + q.data[..written]];
      if written == |q.data| && !failed
      then Move(d.(dir := dir, log := d.log + [Stored(name, |d.dir[name]|, q.data)]), k, WriteLeaving(cleanup))
      else Move(d.(dir := dir, writeDisabled := true, file := None, log := d.log + [Skipped(q.data)]), k, WriteLeaving(false))
    case UnlockWrite(_) => Move(d, k.(mu := None), WriteUnlocked(q.cleanup))
    case Peek(_) => Move(d, k.(mu := None), CleanPruning(d.file))
    case Remove(_, name) => Move(d.(dir := d.dir - {name}, removed := d.removed + {name}), k, q)
    case Shut(_) =>
      Move(d.(closed := d.closed || q.close, writeDisabled := d.writeDisabled || (!q.close && !d.closed), file := None),
           k.(mu := None), ShutLeaving)
    case Snap(_, names) =>
      Move(d, k.(mu := None), ExportCopying(Snapshot(names, d.dir, |d.log|, d.removed), [], []))
    case Read(_, n) =>
      var bytes := d.dir[q.snap.names[|q.out|]];
      Move(d, k, q.(part := q.part + bytes[|q.part|..|q.part| + n]))
    case NextFile(_) => Move(d, k, q.(out := q.out + [q.part], part := []))
    case FinishExport(t) => Move(d, k.(readers := k.readers - {t}), ExportDone(q.snap, q.out, true))
    case AbortExport(t) =>
      Move(d, k.(readers := k.readers - {t}), if q.ExportCopying? then ExportDone(q.snap, q.out, false) else Done)
  }

  predicate Enabled(s: State, l: Label) {
    if l.Arrive? then l.t !in s.threads && Startable(l.q)
    else l.t in s.threads && CanMove(s.d, s.k, s.threads[l.t], l)
  }

  function Next(s: State, l: Label): State
    requires Enabled(s, l)
  {
    if l.Arrive? then s.(threads := s.threads[l.t := l.q])
    else
      var m := Moved(s.d, s.k, s.threads[l.t], l);
      State(m.d, m.k, s.threads[l.t := m.q])
  }

  datatype Run = Run(states: seq<State>, labels: seq<Label>)

  ghost predicate IsRun(run: Run) {
    && |run.states| == |run.labels| + 1
    && Starts(run.states[0])
    && forall i :: 0 <= i < |run.labels| ==>
         Enabled(run.states[i], run.labels[i]) && run.states[i + 1] == Next(run.states[i], run.labels[i])
  }

  // -------------------------------------------------------------- invariants

  ghost predicate LockInv(s: State) {
    && (forall t :: t in s.threads ==> (HoldsShared(s.threads[t]) <==> t in s.k.readers))
    && (forall t :: t in s.threads ==> (HasClaim(s.threads[t]) <==> s.k.claim == Some(t)))
    && (forall t :: t in s.threads ==> (HoldsMu(s.threads[t]) <==> s.k.mu == Some(t)))
    && (forall t :: t in s.threads && HoldsExclusive(s.threads[t]) ==> s.k.readers == {})
    && (forall t :: t in s.k.readers ==> t in s.threads)
    && (s.k.claim.Some? ==> s.k.claim.value in s.threads)
    && (s.k.mu.Some? ==> s.k.mu.value in s.threads)
  }

  /** Every record reported stored is where it was put, unless its file was removed. */
  ghost predicate StoredIn(f: Fate, dir: map<Name, Bytes>) {
    f.Stored? && f.name in dir && f.offset + |f.data| <= |dir[f.name]| &&
    dir[f.name][f.offset..f.offset + |f.data|] == f.data
  }

  ghost predicate FateInv(f: Fate, dir: map<Name, Bytes>, removed: set<Name>, made: set<Name>) {
    f.Stored? ==> f.name in made && (StoredIn(f, dir) || f.name in removed)
  }

  /** The directory, the names and the open file agree. */
  ghost predicate NamesInv(d: Shared) {
    && (forall n :: n in d.dir ==> n in d.made && n !in d.removed)
    && d.removed <= d.made
    && (d.file.Some? ==> d.file.value in d.dir)
  }

  ghost predicate FilesInv(d: Shared) {
    && NamesInv(d)
    && (forall i :: 0 <= i < |d.log| ==> FateInv(d.log[i], d.dir, d.removed, d.made))
    && (forall i :: 0 <= i < |d.log| && d.log[i].Skipped? ==> d.closed || d.writeDisabled)
  }

  /** A writer inside the mutex that is about to append has a file to append to; a cleanup
      that holds the archive knows the open file. */
  ghost predicate ThreadInv(d: Shared, q: Thread) {
    && (q.WriteReady? ==> d.file.Some?)
    && (q.CleanPruning? ==> q.current == d.file)
  }

  /** The copying export has copied exactly the snapshot's bytes, and every file of the
      snapshot is still there and still begins with them. */
  ghost predicate ExportInv(d: Shared, q: Thread) {
    && (q.ExportCopying? || q.ExportDone? ==> CopiedInv(q.snap, q.out) && CoverInv(d, q.snap))
    && (q.ExportDone? && q.ok ==> |q.out| == |q.snap.names|)
    && (q.ExportCopying? ==>
          && (forall n :: n in q.snap.bytes ==> n in d.dir && q.snap.bytes[n] <= d.dir[n])
          && (if |q.out| < |q.snap.names| then q.part <= q.snap.bytes[q.snap.names[|q.out|]] else q.part == []))
  }

  ghost predicate CopiedInv(x: Snapshot, out: seq<Bytes>) {
    && IsListing(x.names, x.bytes)
    && |out| <= |x.names|
    && forall i :: 0 <= i < |out| ==> out[i] == x.bytes[x.names[i]]
  }

  /** The snapshot holds every record given to Write before it, except records that were
      skipped and records in files removed before it. */
  ghost predicate CoverInv(d: Shared, x: Snapshot) {
    && x.records <= |d.log|
    && forall i :: 0 <= i < x.records && d.log[i].Stored? ==> StoredIn(d.log[i], x.bytes) || d.log[i].name in x.gone
  }

  ghost predicate Inv(s: State) {
    && LockInv(s) && FilesInv(s.d)
    && forall t :: t in s.threads ==> ThreadInv(s.d, s.threads[t]) && ExportInv(s.d, s.threads[t])
  }

  // ------------------------------------------------------------ preservation

  lemma MoveMu(d: Shared, k: Locks, q: Thread, l: Label)
    requires CanMove(d, k, q, l)
    requires HoldsMu(q) <==> k.mu == Some(l.t)
    ensures var m := Moved(d, k, q, l);
      && (HoldsMu(m.q) <==> m.k.mu == Some(l.t))
      && (m.k.mu == k.mu || (k.mu == None && m.k.mu == Some(l.t)) || (k.mu == Some(l.t) && m.k.mu == None))
  {
  }

  lemma MoveLocks(d: Shared, k: Locks, q: Thread, l: Label)
    requires CanMove(d, k, q, l)
    requires HoldsShared(q) <==> l.t in k.readers
    requires HasClaim(q) <==> k.claim == Some(l.t)
    requires HoldsExclusive(q) ==> k.readers == {}
    ensures var m := Moved(d, k, q, l);
      && (HoldsShared(m.q) <==> l.t in m.k.readers)
      && (HasClaim(m.q) <==> m.k.claim == Some(l.t))
      && (HoldsExclusive(m.q) ==> m.k.readers == {})
      && (m.k.readers == k.readers || m.k.readers == k.readers - {l.t} || (m.k.readers == k.readers + {l.t} && k.claim == None))
      && (m.k.claim == k.claim || (k.claim == None && m.k.claim == Some(l.t)) || (k.claim == Some(l.t) && m.k.claim == None))
  {
  }

  lemma ArriveLocks(s: State, t: Tid, q: Thread)
    requires LockInv(s) && t !in s.threads && Startable(q)
    ensures LockInv(s.(threads := s.threads[t := q]))
  {
  }

  lemma LockStep(s: State, l: Label)
    requires LockInv(s) && Enabled(s, l)
    ensures LockInv(Next(s, l))
  {
    if l.Arrive? {
      ArriveLocks(s, l.t, l.q);
    } else {
      MoveLocks(s.d, s.k, s.threads[l.t], l);
      MoveMu(s.d, s.k, s.threads[l.t], l);
      LockFrame(s, Next(s, l), l.t);
    }
  }

  lemma LockFrame(s: State, u: State, t: Tid)
    requires LockInv(s) && t in s.threads && t in u.threads && u.threads == s.threads[t := u.threads[t]]
    requires HoldsShared(u.threads[t]) <==> t in u.k.readers
    requires HasClaim(u.threads[t]) <==> u.k.claim == Some(t)
    requires HoldsMu(u.threads[t]) <==> u.k.mu == Some(t)
    requires HoldsExclusive(u.threads[t]) ==> u.k.readers == {}
    requires u.k.readers == s.k.readers || u.k.readers == s.k.readers - {t} || (u.k.readers == s.k.readers + {t} && s.k.claim == None)
    requires u.k.claim == s.k.claim || (s.k.claim == None && u.k.claim == Some(t)) || (s.k.claim == Some(t) && u.k.claim == None)
    requires u.k.mu == s.k.mu || (s.k.mu == None && u.k.mu == Some(t)) || (s.k.mu == Some(t) && u.k.mu == None)
    ensures LockInv(u)
  {
  }

  /** How one step may touch the directory: it appends to the open file, makes a file under
      a new name, or removes a file other than the open one. */
  ghost predicate DirMoves(d: Shared, e: Shared) {
    && d.removed <= e.removed && d.made <= e.made && d.log <= e.log
    && (forall n :: n in d.dir && n in e.dir ==> d.dir[n] <= e.dir[n])
    && (forall n :: n in d.dir && n !in e.dir ==> n in e.removed)
  }

  lemma FateStep(f: Fate, d: Shared, e: Shared)
    requires DirMoves(d, e) && FateInv(f, d.dir, d.removed, d.made)
    ensures FateInv(f, e.dir, e.removed, e.made)
  {
    if f.Stored? && f.name !in e.removed {
      assert StoredIn(f, d.dir);
      var a, b := d.dir[f.name], e.dir[f.name];
      assert a[f.offset..f.offset + |f.data|] == b[f.offset..f.offset + |f.data|];
    }
  }

  lemma AppendDir(d: Shared, k: Locks, q: Thread, l: Label)
    requires CanMove(d, k, q, l) && l.AppendRecord?
    ensures DirMoves(d, Moved(d, k, q, l).d)
  {
  }

  lemma MoveDir(d: Shared, k: Locks, q: Thread, l: Label)
    requires CanMove(d, k, q, l)
    ensures DirMoves(d, Moved(d, k, q, l).d)
  {
    if l.AppendRecord? {
      AppendDir(d, k, q, l);
    }
  }

  lemma MoveNames(d: Shared, k: Locks, q: Thread, l: Label)
    requires CanMove(d, k, q, l) && NamesInv(d) && ThreadInv(d, q)
    ensures NamesInv(Moved(d, k, q, l).d)
  {
  }

  lemma MoveOwnThread(d: Shared, k: Locks, q: Thread, l: Label)
    requires CanMove(d, k, q, l) && ThreadInv(d, q)
    ensures ThreadInv(Moved(d, k, q, l).d, Moved(d, k, q, l).q)
  {
  }

  lemma AppendedSlice(a: Bytes, b: Bytes)
    ensures (a + b)[|a|..|a| + |b|] == b
  {
  }

  /** The record just appended is where its fate says. */
  lemma NewFate(d: Shared, k: Locks, q: Thread, l: Label)
    requires CanMove(d, k, q, l) && FilesInv(d)
    ensures var e := Moved(d, k, q, l).d;
      |d.log| <= |e.log| <= |d.log| + 1 && d.log <= e.log &&
      (|e.log| > |d.log| ==> FateInv(e.log[|d.log|], e.dir, e.removed, e.made) && (e.log[|d.log|].Skipped? ==> e.closed || e.writeDisabled))
  {
    if l.AppendRecord? && l.written == |q.data| && !l.failed {
      assert q.data[..l.written] == q.data;
      AppendedSlice(d.dir[d.file.value], q.data);
    }
  }

  lemma FlagsStay(d: Shared, k: Locks, q: Thread, l: Label)
    requires CanMove(d, k, q, l)
    ensures d.closed || d.writeDisabled ==> Moved(d, k, q, l).d.closed || Moved(d, k, q, l).d.writeDisabled
  {
  }

  lemma MoveLog(d: Shared, k: Locks, q: Thread, l: Label)
    requires CanMove(d, k, q, l) && FilesInv(d) && ThreadInv(d, q)
    ensures FilesInv(Moved(d, k, q, l).d)
  {
    var e := Moved(d, k, q, l).d;
    MoveDir(d, k, q, l);
    MoveNames(d, k, q, l);
    NewFate(d, k, q, l);
    FlagsStay(d, k, q, l);
    forall i | 0 <= i < |e.log| ensures FateInv(e.log[i], e.dir, e.removed, e.made) {
      if i < |d.log| {
        FateStep(d.log[i], d, e);
      }
    }
  }

  /** What a step of another thread must respect for an export to go on. */
  lemma ExportFrame(d: Shared, e: Shared, q: Thread)
    requires DirMoves(d, e) && ExportInv(d, q)
    requires q.ExportCopying? ==> forall n :: n in d.dir ==> n in e.dir
    ensures ExportInv(e, q)
  {
    if q.ExportCopying? || q.ExportDone? {
      assert forall i :: 0 <= i < q.snap.records ==> e.log[i] == d.log[i];
    }
  }

  /** The open file changes only under mu, and files go only under the exclusive lock. */
  lemma WhoTouches(d: Shared, k: Locks, q: Thread, l: Label)
    requires CanMove(d, k, q, l)
    ensures Moved(d, k, q, l).d.file != d.file ==> HoldsMu(q)
    ensures !HoldsExclusive(q) ==> forall n :: n in d.dir ==> n in Moved(d, k, q, l).d.dir
  {
  }

  lemma MuNeedsArchive(q: Thread)
    requires !HoldsShared(q) && !HoldsExclusive(q)
    ensures !HoldsMu(q)
  {
  }

  /** While one thread holds mu or the exclusive lock no other holds mu. */
  lemma SoleMu(s: State, t: Tid, x: Tid)
    requires LockInv(s) && t in s.threads && x in s.threads && t != x
    requires HoldsMu(s.threads[t]) || HoldsExclusive(s.threads[t])
    ensures !HoldsMu(s.threads[x])
  {
    if !HoldsMu(s.threads[t]) {
      assert !HoldsShared(s.threads[x]) && !HasClaim(s.threads[x]);
      MuNeedsArchive(s.threads[x]);
    }
  }

  /** Removals happen only while nobody exports. */
  lemma OthersKeepFiles(s: State, l: Label, t: Tid)
    requires LockInv(s) && Enabled(s, l) && !l.Arrive? && t in s.threads && t != l.t && s.threads[t].ExportCopying?
    ensures forall n :: n in s.d.dir ==> n in Next(s, l).d.dir
  {
    assert t in s.k.readers;
    assert !HoldsExclusive(s.threads[l.t]);
    WhoTouches(s.d, s.k, s.threads[l.t], l);
  }

  /** Whoever holds mu or the exclusive lock keeps the open file from changing. */
  lemma SameFile(s: State, l: Label, t: Tid)
    requires LockInv(s) && Enabled(s, l) && !l.Arrive? && t in s.threads && t != l.t
    requires HoldsMu(s.threads[t]) || HoldsExclusive(s.threads[t])
    ensures Next(s, l).d.file == s.d.file
  {
    SoleMu(s, t, l.t);
    WhoTouches(s.d, s.k, s.threads[l.t], l);
  }

  /** The open file changes only under mu or under the exclusive lock. */
  lemma OthersKeepFile(s: State, l: Label, t: Tid)
    requires LockInv(s) && Enabled(s, l) && !l.Arrive? && t in s.threads && t != l.t && ThreadInv(s.d, s.threads[t])
    ensures ThreadInv(Next(s, l).d, s.threads[t])
  {
    if s.threads[t].WriteReady? || s.threads[t].CleanPruning? {
      SameFile(s, l, t);
    }
  }

  lemma SnapExport(d: Shared, k: Locks, q: Thread, l: Label)
    requires CanMove(d, k, q, l) && FilesInv(d) && l.Snap?
    ensures ExportInv(Moved(d, k, q, l).d, Moved(d, k, q, l).q)
  {
    var m := Moved(d, k, q, l);
    forall i | 0 <= i < |d.log| && d.log[i].Stored? ensures StoredIn(d.log[i], m.q.snap.bytes) || d.log[i].name in m.q.snap.gone {
      assert FateInv(d.log[i], d.dir, d.removed, d.made);
    }
  }

  lemma ReadExport(d: Shared, k: Locks, q: Thread, l: Label)
    requires CanMove(d, k, q, l) && ExportInv(d, q) && l.Read?
    ensures ExportInv(Moved(d, k, q, l).d, Moved(d, k, q, l).q)
  {
    var name := q.snap.names[|q.out|];
    assert Moved(d, k, q, l).q.part == d.dir[name][..|q.part| + l.n];
  }

  lemma NextExport(d: Shared, k: Locks, q: Thread, l: Label)
    requires CanMove(d, k, q, l) && ExportInv(d, q) && l.NextFile?
    ensures ExportInv(Moved(d, k, q, l).d, Moved(d, k, q, l).q)
  {
  }

  lemma EndExport(d: Shared, k: Locks, q: Thread, l: Label)
    requires CanMove(d, k, q, l) && ExportInv(d, q) && (l.FinishExport? || l.AbortExport?)
    ensures ExportInv(Moved(d, k, q, l).d, Moved(d, k, q, l).q)
  {
  }

  lemma NoExport(d: Shared, k: Locks, q: Thread, l: Label)
    requires CanMove(d, k, q, l)
    requires !l.Snap? && !l.Read? && !l.NextFile? && !l.FinishExport? && !l.AbortExport?
    ensures !Moved(d, k, q, l).q.ExportCopying? && !Moved(d, k, q, l).q.ExportDone?
  {
  }

  lemma OwnExport(d: Shared, k: Locks, q: Thread, l: Label)
    requires CanMove(d, k, q, l) && FilesInv(d) && ExportInv(d, q)
    ensures ExportInv(Moved(d, k, q, l).d, Moved(d, k, q, l).q)
  {
    if l.Snap? {
      SnapExport(d, k, q, l);
    } else if l.Read? {
      ReadExport(d, k, q, l);
    } else if l.NextFile? {
      NextExport(d, k, q, l);
    } else if l.FinishExport? || l.AbortExport? {
      EndExport(d, k, q, l);
    } else {
      NoExport(d, k, q, l);
    }
  }

  lemma ThreadStep(s: State, l: Label, t: Tid)
    requires Inv(s) && Enabled(s, l) && t in Next(s, l).threads
    ensures ThreadInv(Next(s, l).d, Next(s, l).threads[t]) && ExportInv(Next(s, l).d, Next(s, l).threads[t])
  {
    if !l.Arrive? {
      MoveDir(s.d, s.k, s.threads[l.t], l);
      if t == l.t {
        MoveOwnThread(s.d, s.k, s.threads[t], l);
        OwnExport(s.d, s.k, s.threads[t], l);
      } else {
        if s.threads[t].ExportCopying? {
          OthersKeepFiles(s, l, t);
        }
        ExportFrame(s.d, Next(s, l).d, s.threads[t]);
        OthersKeepFile(s, l, t);
      }
    }
  }

  lemma Step(s: State, l: Label)
    requires Inv(s) && Enabled(s, l)
    ensures Inv(Next(s, l))
  {
    LockStep(s, l);
    if !l.Arrive? {
      MoveLog(s.d, s.k, s.threads[l.t], l);
    }
    forall t | t in Next(s, l).threads
      ensures ThreadInv(Next(s, l).d, Next(s, l).threads[t]) && ExportInv(Next(s, l).d, Next(s, l).threads[t])
    {
      ThreadStep(s, l, t);
    }
  }

  // ------------------------------------------------------- the main results

  lemma {:induction false} RunInv(run: Run, i: nat)
    requires IsRun(run) && i < |run.states|
    ensures Inv(run.states[i])
  {
    if i > 0 {
      RunInv(run, i - 1);
      Step(run.states[i - 1], run.labels[i - 1]);
    }
  }

  /** While an export copies, whatever writers, cleanups and closers do: every file of its
      snapshot is still in the directory and begins with the snapshot's bytes, and the next
      read of the file being copied can be made and yields the snapshot's bytes. */
  lemma ExportUndisturbed(run: Run, i: nat, t: Tid, n: nat)
    requires IsRun(run) && i < |run.states|
    requires t in run.states[i].threads && run.states[i].threads[t].ExportCopying?
    ensures var d, q := run.states[i].d, run.states[i].threads[t];
      && (forall name :: name in q.snap.bytes ==> name in d.dir && q.snap.bytes[name] <= d.dir[name])
      && (|q.out| < |q.snap.names| ==> q.snap.names[|q.out|] in q.snap.bytes)
      && (|q.out| < |q.snap.names| && 0 < n && |q.part| + n <= |q.snap.bytes[q.snap.names[|q.out|]]| ==>
            && Enabled(run.states[i], Read(t, n))
            && Next(run.states[i], Read(t, n)).threads[t].part == q.snap.bytes[q.snap.names[|q.out|]][..|q.part| + n])
  {
    RunInv(run, i);
    var d, q := run.states[i].d, run.states[i].threads[t];
    assert ExportInv(d, q);
    if |q.out| < |q.snap.names| && 0 < n {
      var name := q.snap.names[|q.out|];
      assert name in q.snap.bytes && q.snap.bytes[name] <= d.dir[name];
      if |q.part| + n <= |q.snap.bytes[name]| {
        assert q.part + d.dir[name][|q.part|..|q.part| + n] == q.snap.bytes[name][..|q.part| + n];
      }
    }
  }

  /** A finished export has copied, file by file, exactly the bytes each file held at the
      snapshot; and every record given to Write before the snapshot is among them, unless
      it was skipped or its file had been removed by then. */
  lemma ExportExact(run: Run, i: nat, t: Tid)
    requires IsRun(run) && i < |run.states|
    requires t in run.states[i].threads && run.states[i].threads[t].ExportDone? && run.states[i].threads[t].ok
    ensures var d, q := run.states[i].d, run.states[i].threads[t];
      && IsListing(q.snap.names, q.snap.bytes)
      && |q.out| == |q.snap.names|
      && (forall k :: 0 <= k < |q.out| ==> q.out[k] == q.snap.bytes[q.snap.names[k]])
      && CoverInv(d, q.snap)
  {
    RunInv(run, i);
    assert ExportInv(run.states[i].d, run.states[i].threads[t]);
  }

  predicate Exporting(q: Thread) { q.ExportCopying? || q.ExportDone? }

  lemma SnapshotStep(d: Shared, k: Locks, q: Thread, l: Label)
    requires CanMove(d, k, q, l) && Exporting(Moved(d, k, q, l).q)
    ensures var x := Moved(d, k, q, l).q.snap;
      if Exporting(q) then x == q.snap
      else l.Snap? && x.bytes == d.dir && x.records == |d.log| && x.gone == d.removed
  {
  }

  /** The snapshot of an export is the whole directory as it was when the export took it, at
      some step `j`, together with the records written and the files removed by then. */
  lemma {:induction false} SnapshotTaken(run: Run, i: nat, t: Tid) returns (j: nat)
    requires IsRun(run) && i < |run.states| && t in run.states[i].threads && Exporting(run.states[i].threads[t])
    ensures j < i && run.labels[j].Snap? && run.labels[j].t == t
    ensures var d, x := run.states[j].d, run.states[i].threads[t].snap;
      x.bytes == d.dir && x.records == |d.log| && x.gone == d.removed
  {
    j := i - 1;
    var s, l := run.states[j], run.labels[j];
    if t in s.threads && Exporting(s.threads[t]) {
      if l.t == t {
        SnapshotStep(s.d, s.k, s.threads[t], l);
      }
      j := SnapshotTaken(run, j, t);
    } else {
      SnapshotStep(s.d, s.k, s.threads[t], l);
    }
  }

  // ------------------------------------------------------ after close or failure

  predicate Off(d: Shared) { d.closed || d.writeDisabled }

  /** Files may go, but none is made or changed, and every record since is skipped. */
  ghost predicate Unwritten(d: Shared, e: Shared) {
    && (forall n :: n in e.dir ==> n in d.dir && e.dir[n] == d.dir[n])
    && d.log <= e.log && (forall i :: |d.log| <= i < |e.log| ==> e.log[i].Skipped?)
  }

  lemma UnwrittenTrans(d: Shared, e: Shared, f: Shared)
    requires Unwritten(d, e) && Unwritten(e, f)
    ensures Unwritten(d, f)
  {
    assert forall i :: |d.log| <= i < |e.log| ==> f.log[i] == e.log[i];
  }

  lemma MoveFlags(d: Shared, k: Locks, q: Thread, l: Label)
    requires CanMove(d, k, q, l)
    ensures !HoldsMu(q) ==> Off(Moved(d, k, q, l).d) == Off(d)
    ensures Off(d) ==> Off(Moved(d, k, q, l).d)
  {
  }

  lemma MoveReady(d: Shared, k: Locks, q: Thread, l: Label)
    requires CanMove(d, k, q, l)
    ensures Moved(d, k, q, l).q.WriteReady? ==> !Off(Moved(d, k, q, l).d)
  {
  }

  lemma MoveOff(d: Shared, k: Locks, q: Thread, l: Label)
    requires CanMove(d, k, q, l) && Off(d) && !q.WriteReady?
    ensures Unwritten(d, Moved(d, k, q, l).d)
  {
  }

  /** A writer that has passed the check still finds the archive open. */
  ghost predicate ReadyOpen(s: State) {
    forall t :: t in s.threads && s.threads[t].WriteReady? ==> !Off(s.d)
  }

  lemma ReadyStep(s: State, l: Label)
    requires LockInv(s) && ReadyOpen(s) && Enabled(s, l)
    ensures ReadyOpen(Next(s, l))
  {
    if !l.Arrive? {
      var u := Next(s, l);
      MoveFlags(s.d, s.k, s.threads[l.t], l);
      MoveReady(s.d, s.k, s.threads[l.t], l);
      forall t | t in u.threads && u.threads[t].WriteReady? && t != l.t ensures !Off(u.d) {
        SoleMu(s, t, l.t);
      }
    }
  }

  lemma {:induction false} ReadyRun(run: Run, i: nat)
    requires IsRun(run) && i < |run.states|
    ensures ReadyOpen(run.states[i])
  {
    if i > 0 {
      var s, l := run.states[i - 1], run.labels[i - 1];
      ReadyRun(run, i - 1);
      RunInv(run, i - 1);
      assert LockInv(s);
      ReadyStep(s, l);
    }
  }

  lemma OffStep(s: State, l: Label)
    requires ReadyOpen(s) && Enabled(s, l) && Off(s.d)
    ensures Off(Next(s, l).d) && Unwritten(s.d, Next(s, l).d)
  {
    if !l.Arrive? {
      MoveFlags(s.d, s.k, s.threads[l.t], l);
      MoveOff(s.d, s.k, s.threads[l.t], l);
    }
  }

  /** Once the archive is closed or its writes are disabled, nothing is ever written to it
      again: no file is made or changed, every later record is skipped. */
  lemma {:induction false} OffForGood(run: Run, i: nat, j: nat)
    requires IsRun(run) && i <= j < |run.states| && Off(run.states[i].d)
    ensures Off(run.states[j].d) && Unwritten(run.states[i].d, run.states[j].d)
  {
    if i < j {
      OffForGood(run, i, j - 1);
      ReadyRun(run, j - 1);
      OffStep(run.states[j - 1], run.labels[j - 1]);
      UnwrittenTrans(run.states[i].d, run.states[j - 1].d, run.states[j].d);
    }
  }

  /** Close closes the archive for good; disableWrites at least turns writes off. */
  lemma ShutIsFinal(run: Run, i: nat, j: nat)
    requires IsRun(run) && i < j < |run.states| && run.labels[i].Shut?
    ensures Unwritten(run.states[i].d, run.states[j].d) && Off(run.states[j].d)
    ensures run.states[i].threads[run.labels[i].t].close ==> run.states[i + 1].d.closed
    ensures run.states[i + 1].d.file == None
  {
    OffForGood(run, i + 1, j);
    UnwrittenTrans(run.states[i].d, run.states[i + 1].d, run.states[j].d);
  }

  lemma {:induction false} ListingExists(dir: map<Name, Bytes>) returns (names: seq<Name>)
    ensures IsListing(names, dir)
    decreases |dir|
  {
    if dir == map[] {
      names := [];
    } else {
      var n :| n in dir;
      var rest := ListingExists(dir - {n});
      names := [n] + rest;
    }
  }

  predicate Finished(q: Thread) { q.Done? || q.ExportDone? }

  /** Inside mu nothing blocks: the lock order lets no thread wait for archiveMu there. */
  lemma InsideMuMoves(s: State, t: Tid) returns (l: Label)
    requires Inv(s) && t in s.threads && HoldsMu(s.threads[t])
    ensures !l.Arrive? && Enabled(s, l)
  {
    var q := s.threads[t];
    assert ThreadInv(s.d, q);
    match q {
      case WriteInside(_) =>
        return if s.d.closed || s.d.writeDisabled then SkipWrite(t) else if s.d.file.Some? then Reuse(t) else FailRotate(t);
      case WriteReady(data) => return AppendRecord(t, |data|, false, false);
      case WriteLeaving(_) => return UnlockWrite(t);
      case CleanPeek => return Peek(t);
      case ShutInside(_) => return Shut(t);
      case _ =>
        var names := ListingExists(s.d.dir);
        return Snap(t, names);
    }
  }

  /** A thread that has archiveMu, or a reader that holds it, can move when mu is free. */
  lemma InsideArchiveMoves(s: State, t: Tid) returns (l: Label)
    requires Inv(s) && s.k.mu == None
    requires t in s.threads && (HoldsShared(s.threads[t]) || HoldsExclusive(s.threads[t]))
    ensures !l.Arrive? && Enabled(s, l)
  {
    var q := s.threads[t];
    assert ExportInv(s.d, q);
    match q {
      case WriteUnlocked(_) => return UnlockShared(t);
      case CleanPruning(_) => return UnlockExclusive(t, false);
      case ShutLeaving => return UnlockExclusive(t, false);
      case ExportCopying(snap, out, part) =>
        if |out| == |snap.names| {
          return FinishExport(t);
        }
        var name := snap.names[|out|];
        assert name in snap.bytes;
        return if |part| == |snap.bytes[name]| then NextFile(t) else Read(t, 1);
      case _ => return LockMu(t);
    }
  }

  lemma SomeMoves(s: State, t: Tid) returns (l: Label)
    requires Inv(s) && t in s.threads && !Finished(s.threads[t])
    ensures !l.Arrive? && Enabled(s, l)
  {
    if s.k.mu.Some? {
      l := InsideMuMoves(s, s.k.mu.value);
    } else if r :| r in s.k.readers {
      l := InsideArchiveMoves(s, r);
    } else if s.k.claim.Some? {
      var c := s.k.claim.value;
      if HoldsExclusive(s.threads[c]) {
        l := InsideArchiveMoves(s, c);
      } else {
        l := Hold(c);
      }
    } else {
      l := if s.threads[t].WriteStart? || s.threads[t].ExportStart? then LockShared(t) else Claim(t);
    }
  }

  /** archiveMu before mu admits no deadlock: as long as some thread is unfinished, some
      thread can take a step. */
  lemma NoDeadlock(run: Run, i: nat, t: Tid) returns (l: Label)
    requires IsRun(run) && i < |run.states|
    requires t in run.states[i].threads && !Finished(run.states[i].threads[t])
    ensures !l.Arrive? && Enabled(run.states[i], l)
  {
    RunInv(run, i);
    l := SomeMoves(run.states[i], t);
  }
}
