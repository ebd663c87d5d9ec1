/**
  The asynchronous queue on top of the archive: AsyncStore.Export flushes the queue and
  then exports the archive. The two step systems of modules AsyncLog and ArchiveExport run
  together, joined where the worker calls Store.Write and where a returned flush starts an
  export.
 */
module LogPipeline {
  import opened Optional
  import opened Records
  import Q = AsyncLog
  import A = ArchiveExport

  /** `writer` is the archive thread in which the worker's Store.Write runs, `exports` maps
      an Export call to its archive thread, and `due` says how many accepted records that
      thread has to cover: those before the call's barrier. */
  datatype Pipe = Pipe(log: Q.State, arc: A.State, writer: Option<A.Tid>, exports: map<Q.Id, A.Tid>, due: map<A.Tid, nat>)

  datatype Label =
    | Queue(l: Q.Label)
    | BeginWrite(t: A.Tid)
    | EndWrite
    | Archive(a: A.Label)
    | BeginExport(c: Q.Id, t: A.Tid)

  /** An empty queue over a store as Open leaves it. */
  ghost predicate Starts(s: Pipe) {
    s.log == Q.Init && A.Starts(s.arc) && s.writer == None && s.exports == map[] && s.due == map[]
  }

  predicate HoldsRecord(s: Q.State) { s.d.worker.Got? && s.d.worker.job.Record? }

  predicate Enabled(s: Pipe, l: Label) {
    match l
    // handing a record over is the archive's Write, not one step of the queue
    case Queue(q) => Q.Enabled(s.log, q) && !(q.Handle? && HoldsRecord(s.log))
    case BeginWrite(t) => HoldsRecord(s.log) && s.writer == None && t !in s.arc.threads
    case EndWrite => s.writer.Some? && s.writer.value in s.arc.threads && s.arc.threads[s.writer.value].Done? && HoldsRecord(s.log)
    // only the worker writes to the archive
    case Archive(a) => A.Enabled(s.arc, a) && (a.Arrive? ==> !a.q.WriteStart?)
    case BeginExport(c, t) =>
      && c in s.log.clients && s.log.clients[c] == Q.FlushDone(true)
      && c in s.log.d.mark && c !in s.exports && t !in s.arc.threads
  }

  function Next(s: Pipe, l: Label): Pipe
    requires Enabled(s, l)
  {
    match l
    case Queue(q) => s.(log := Q.Next(s.log, q))
    case BeginWrite(t) =>
      s.(arc := A.Next(s.arc, A.Arrive(t, A.WriteStart(s.log.d.worker.job.data))), writer := Some(t))
    case EndWrite => s.(log := Q.Next(s.log, Q.Handle), writer := None)
    case Archive(a) => s.(arc := A.Next(s.arc, a))
    case BeginExport(c, t) =>
      s.(arc := A.Next(s.arc, A.Arrive(t, A.ExportStart)), exports := s.exports[c := t], due := s.due[t := s.log.d.mark[c]])
  }

  datatype Run = Run(states: seq<Pipe>, labels: seq<Label>)

  ghost predicate IsRun(run: Run) {
    && |run.states| == |run.labels| + 1
    && Starts(run.states[0])
    && forall i :: 0 <= i < |run.labels| ==>
         Enabled(run.states[i], run.labels[i]) && run.states[i + 1] == Next(run.states[i], run.labels[i])
  }

  /** In Write with the record's fate not yet decided. */
  predicate Undecided(q: A.Thread) { q.WriteStart? || q.WriteShared? || q.WriteInside? || q.WriteReady? }

  /** The fates of the archive are those of the handed records, then that of the record in
      hand if it has been decided. */
  ghost predicate FatesMatch(s: Pipe) {
    var decided := if s.writer.Some? && s.writer.value in s.arc.threads && !Undecided(s.arc.threads[s.writer.value])
                   then Q.InHand(s.log.d.worker) else [];
    && |s.arc.d.log| == |s.log.d.handed| + |decided|
    && forall i :: 0 <= i < |s.arc.d.log| ==> s.arc.d.log[i].data == (s.log.d.handed + decided)[i]
  }

  ghost predicate WriterInv(s: Pipe) {
    && (s.writer.Some? ==>
          && HoldsRecord(s.log) && s.writer.value in s.arc.threads
          && var q := s.arc.threads[s.writer.value]; Undecided(q) ==> q.data == s.log.d.worker.job.data)
    && (forall t :: t in s.arc.threads && Undecided(s.arc.threads[t]) ==> s.writer == Some(t))
  }

  ghost predicate DueInv(s: Pipe) {
    && (forall t :: t in s.due ==>
          && s.due[t] <= |s.arc.d.log| && t in s.arc.threads
          && var q := s.arc.threads[t]; (q.ExportCopying? || q.ExportDone? ==> s.due[t] <= q.snap.records))
    && (forall c :: c in s.exports ==>
          s.exports[c] in s.due && c in s.log.d.mark && s.due[s.exports[c]] == s.log.d.mark[c] && c in s.log.d.passed)
  }

  ghost predicate JoinInv(s: Pipe) { WriterInv(s) && FatesMatch(s) && DueInv(s) }

  ghost predicate Inv(s: Pipe) { Q.LogInv(s.log) && A.Inv(s.arc) && JoinInv(s) }

  // ------------------------------------------------------------ preservation

  /** Only a decision adds a fate. */
  ghost predicate LogMove(log: seq<A.Fate>, q: A.Thread, log': seq<A.Fate>, q': A.Thread) {
    && (Undecided(q) && !Undecided(q') ==> |log'| == |log| + 1 && log <= log' && log'[|log|].data == q.data)
    && (Undecided(q) && Undecided(q') ==> log' == log && q'.data == q.data)
    && (!Undecided(q) ==> !Undecided(q') && log' == log)
  }

  /** A snapshot covers the fates decided by then and stays with its export. */
  ghost predicate SnapMove(log: seq<A.Fate>, q: A.Thread, q': A.Thread) {
    && (A.Exporting(q) ==> A.Exporting(q') && q'.snap == q.snap)
    && (!A.Exporting(q) && A.Exporting(q') ==> q'.snap.records == |log|)
  }

  ghost predicate FateMove(log: seq<A.Fate>, q: A.Thread, log': seq<A.Fate>, q': A.Thread) {
    LogMove(log, q, log', q') && SnapMove(log, q, q')
  }

  lemma WriterStepLog(d: A.Shared, k: A.Locks, q: A.Thread, l: A.Label)
    requires A.CanMove(d, k, q, l) && Undecided(q)
    ensures LogMove(d.log, q, A.Moved(d, k, q, l).d.log, A.Moved(d, k, q, l).q)
  {
  }

  lemma OtherStepLog(d: A.Shared, k: A.Locks, q: A.Thread, l: A.Label)
    requires A.CanMove(d, k, q, l) && !Undecided(q)
    ensures LogMove(d.log, q, A.Moved(d, k, q, l).d.log, A.Moved(d, k, q, l).q)
  {
  }

  lemma ArchiveStepSnap(d: A.Shared, k: A.Locks, q: A.Thread, l: A.Label)
    requires A.CanMove(d, k, q, l)
    ensures SnapMove(d.log, q, A.Moved(d, k, q, l).q)
  {
  }

  lemma ArchiveStepFates(d: A.Shared, k: A.Locks, q: A.Thread, l: A.Label)
    requires A.CanMove(d, k, q, l)
    ensures FateMove(d.log, q, A.Moved(d, k, q, l).d.log, A.Moved(d, k, q, l).q)
  {
    if Undecided(q) {
      WriterStepLog(d, k, q, l);
    } else {
      OtherStepLog(d, k, q, l);
    }
    ArchiveStepSnap(d, k, q, l);
  }

  lemma ArchiveFrame(s: Pipe, u: A.State, t: A.Tid)
    requires JoinInv(s) && t in s.arc.threads && t in u.threads && u.threads == s.arc.threads[t := u.threads[t]]
    requires FateMove(s.arc.d.log, s.arc.threads[t], u.d.log, u.threads[t])
    ensures JoinInv(s.(arc := u))
  {
  }

  /** A new archive thread that is not a writer. */
  lemma ArrivalFrame(s: Pipe, u: A.State, t: A.Tid)
    requires JoinInv(s) && t !in s.arc.threads && t in u.threads && u.threads == s.arc.threads[t := u.threads[t]]
    requires u.d == s.arc.d && !Undecided(u.threads[t]) && !A.Exporting(u.threads[t])
    ensures JoinInv(s.(arc := u))
  {
  }

  lemma ArchiveKeeps(s: Pipe, a: A.Label)
    requires JoinInv(s) && Enabled(s, Archive(a))
    ensures JoinInv(Next(s, Archive(a)))
  {
    if a.Arrive? {
      ArrivalFrame(s, A.Next(s.arc, a), a.t);
    } else {
      ArchiveStepFates(s.arc.d, s.arc.k, s.arc.threads[a.t], a);
      ArchiveFrame(s, A.Next(s.arc, a), a.t);
    }
  }

  /** Steps of the queue other than handing over leave the worker's record alone. */
  lemma QueueStepWorker(s: Q.State, l: Q.Label)
    requires Q.LogInv(s) && Q.Enabled(s, l) && !(l.Handle? && HoldsRecord(s))
    ensures var t := Q.Next(s, l);
      && t.d.handed == s.d.handed && s.d.passed <= t.d.passed
      && (HoldsRecord(s) ==> t.d.worker == s.d.worker)
      && Q.Grows(s, t)
  {
    Q.GrowsStep(s, l);
  }

  lemma QueueKeeps(s: Pipe, l: Q.Label)
    requires Q.LogInv(s.log) && JoinInv(s) && Enabled(s, Queue(l))
    ensures JoinInv(Next(s, Queue(l)))
  {
    QueueStepWorker(s.log, l);
  }

  lemma BeginWriteKeeps(s: Pipe, t: A.Tid)
    requires JoinInv(s) && Enabled(s, BeginWrite(t))
    ensures JoinInv(Next(s, BeginWrite(t)))
  {
    var u := Next(s, BeginWrite(t)).arc;
    assert u.d == s.arc.d && u.threads == s.arc.threads[t := A.WriteStart(s.log.d.worker.job.data)];
  }

  lemma EndWriteKeeps(s: Pipe)
    requires JoinInv(s) && Enabled(s, EndWrite)
    ensures JoinInv(Next(s, EndWrite))
  {
    var log := Q.Next(s.log, Q.Handle);
    assert log.d.handed == s.log.d.handed + [s.log.d.worker.job.data] && log.d.mark == s.log.d.mark;
    assert Q.InHand(s.log.d.worker) == [s.log.d.worker.job.data];
  }

  lemma BeginExportKeeps(s: Pipe, c: Q.Id, t: A.Tid)
    requires Q.LogInv(s.log) && JoinInv(s) && Enabled(s, BeginExport(c, t))
    ensures JoinInv(Next(s, BeginExport(c, t)))
  {
    assert Q.ClientInv(s.log.d, c, s.log.clients[c]);
    var u := A.Next(s.arc, A.Arrive(t, A.ExportStart));
    ArrivalFrame(s, u, t);
    DueFrame(s.(arc := u), c, t);
  }

  lemma DueFrame(s: Pipe, c: Q.Id, t: A.Tid)
    requires JoinInv(s) && t in s.arc.threads && !A.Exporting(s.arc.threads[t]) && t !in s.due && c !in s.exports
    requires c in s.log.d.mark && s.log.d.mark[c] <= |s.log.d.handed| && c in s.log.d.passed
    ensures JoinInv(s.(exports := s.exports[c := t], due := s.due[t := s.log.d.mark[c]]))
  {
  }

  lemma Step(s: Pipe, l: Label)
    requires Inv(s) && Enabled(s, l)
    ensures Inv(Next(s, l))
  {
    match l {
      case Queue(q) =>
        Q.LogStep(s.log, q);
        QueueKeeps(s, q);
      case Archive(a) =>
        A.Step(s.arc, a);
        ArchiveKeeps(s, a);
      case BeginWrite(t) =>
        A.Step(s.arc, A.Arrive(t, A.WriteStart(s.log.d.worker.job.data)));
        BeginWriteKeeps(s, t);
      case EndWrite =>
        Q.LogStep(s.log, Q.Handle);
        EndWriteKeeps(s);
      case BeginExport(c, t) =>
        A.Step(s.arc, A.Arrive(t, A.ExportStart));
        BeginExportKeeps(s, c, t);
    }
  }

  // ------------------------------------------------------- the main result

  lemma StartInv(s: Pipe)
    requires Starts(s)
    ensures Inv(s)
  {
    assert Q.LogInv(Q.Init);
    assert A.Inv(s.arc);
  }

  lemma {:induction false} RunInv(run: Run, i: nat)
    requires IsRun(run) && i < |run.states|
    ensures Inv(run.states[i])
  {
    if i == 0 {
      StartInv(run.states[0]);
    } else {
      RunInv(run, i - 1);
      Step(run.states[i - 1], run.labels[i - 1]);
    }
  }

  lemma LogGrows(s: Pipe, l: Label)
    requires Inv(s) && Enabled(s, l)
    ensures Q.Grows(s.log, Next(s, l).log)
  {
    if l.Queue? {
      Q.GrowsStep(s.log, l.l);
    } else if l.EndWrite? {
      Q.GrowsStep(s.log, Q.Handle);
    }
  }

  lemma {:induction false} Persists(run: Run, i: nat, j: nat)
    requires IsRun(run) && i <= j < |run.states|
    ensures Q.Grows(run.states[i].log, run.states[j].log)
    decreases j - i
  {
    if i < j {
      RunInv(run, i);
      LogGrows(run.states[i], run.labels[i]);
      Persists(run, i + 1, j);
      Q.GrowsTrans(run.states[i].log, run.states[i + 1].log, run.states[j].log);
    }
  }

  /** What became of the record, seen from an export: its bytes are in the snapshot, or its
      file had been pruned before the snapshot, or archive writes were off. */
  ghost predicate Accounted(d: A.Shared, x: A.Snapshot, f: A.Fate, record: Bytes) {
    && f.data == record
    && (f.Stored? ==> A.StoredIn(f, x.bytes) || f.name in x.gone)
    && (f.Skipped? ==> d.closed || d.writeDisabled)
  }

  /** The snapshot's bytes, file by file, are what a finished export has written. */
  ghost predicate Exported(q: A.Thread)
    requires q.ExportDone?
  {
    && |q.out| == |q.snap.names|
    && forall n :: 0 <= n < |q.out| ==> q.snap.names[n] in q.snap.bytes && q.out[n] == q.snap.bytes[q.snap.names[n]]
  }

  lemma ExportedExactly(d: A.Shared, q: A.Thread)
    requires A.ExportInv(d, q) && q.ExportDone? && q.ok
    ensures Exported(q)
  {
  }

  /** A record whose fate was decided before the snapshot is accounted for. */
  lemma CoveredFate(d: A.Shared, x: A.Snapshot, k: nat, record: Bytes)
    requires A.FilesInv(d) && A.CoverInv(d, x) && k < x.records && d.log[k].data == record
    ensures Accounted(d, x, d.log[k], record)
  {
  }

  lemma SnapCovers(d: A.Shared, q: A.Thread)
    requires A.ExportInv(d, q) && q.ExportDone?
    ensures A.CoverInv(d, q.snap)
  {
  }

  /** What an export has to cover it does cover. */
  lemma DueCovered(u: Pipe, c: Q.Id, t: A.Tid, k: nat)
    requires JoinInv(u) && c in u.exports && u.exports[c] == t && t in u.arc.threads && u.arc.threads[t].ExportDone?
    ensures c in u.log.d.mark && (k < u.log.d.mark[c] ==> k < u.arc.threads[t].snap.records)
  {
  }

  lemma HandedFate(u: Pipe, k: nat)
    requires Q.OrderInv(u.log.d) && FatesMatch(u) && k < |u.log.d.handed|
    ensures k < |u.arc.d.log| && k < |u.log.d.accepted| && u.arc.d.log[k].data == u.log.d.accepted[k]
  {
    assert u.log.d.handed <= u.log.d.accepted;
  }

  lemma MarkHanded(u: Pipe, c: Q.Id)
    requires Q.BarrierInv(u.log.d) && DueInv(u) && c in u.exports
    ensures c in u.log.d.mark && u.log.d.mark[c] <= |u.log.d.handed|
  {
  }

  lemma Covered(u: Pipe, c: Q.Id, t: A.Tid, k: nat, record: Bytes)
    requires Inv(u) && c in u.exports && u.exports[c] == t
    requires t in u.arc.threads && u.arc.threads[t].ExportDone?
    requires c in u.log.d.mark && k < u.log.d.mark[c] && k < |u.log.d.accepted| && u.log.d.accepted[k] == record
    ensures k < |u.arc.d.log| && Accounted(u.arc.d, u.arc.threads[t].snap, u.arc.d.log[k], record)
  {
    MarkHanded(u, c);
    HandedFate(u, k);
    DueCovered(u, c, t, k);
    SnapCovers(u.arc.d, u.arc.threads[t]);
    CoveredFate(u.arc.d, u.arc.threads[t].snap, k, record);
  }

  /** A mark made after `i` covers the records accepted by then. */
  lemma MarkedLater(s: Q.State, u: Q.State, c: Q.Id, k: nat)
    requires Q.Grows(s, u) && c !in s.d.mark && c in u.d.mark && k < |s.d.accepted|
    ensures k < u.d.mark[c] && k < |u.d.accepted| && u.d.accepted[k] == s.d.accepted[k]
  {
  }

  lemma Unmarked(s: Q.State, c: Q.Id)
    requires Q.LogInv(s) && c in s.clients && s.clients[c].FlushTrying?
    ensures c !in s.d.mark
  {
    assert Q.ClientInv(s.d, c, s.clients[c]);
  }

  /** AsyncStore.Export: every record accepted before the call began is in the exported
      bytes, unless its file was pruned before the snapshot or archive writes were off,
      whatever writers, cleanups, other exports and closers do meanwhile. */
  lemma ExportCoversAccepted(run: Run, i: nat, j: nat, c: Q.Id, t: A.Tid, k: nat)
    requires IsRun(run) && i <= j < |run.states|
    requires c in run.states[i].log.clients && run.states[i].log.clients[c].FlushTrying?
    requires c in run.states[j].exports && run.states[j].exports[c] == t
    requires t in run.states[j].arc.threads && run.states[j].arc.threads[t].ExportDone? && run.states[j].arc.threads[t].ok
    requires k < |run.states[i].log.d.accepted|
    ensures var d, q := run.states[j].arc.d, run.states[j].arc.threads[t];
      Exported(q) && k < |d.log| && Accounted(d, q.snap, d.log[k], run.states[i].log.d.accepted[k])
  {
    var s, u := run.states[i], run.states[j];
    RunInv(run, i);
    Unmarked(s.log, c);
    RunInv(run, j);
    Persists(run, i, j);
    DueCovered(u, c, t, k);
    MarkedLater(s.log, u.log, c, k);
    Covered(u, c, t, k, s.log.d.accepted[k]);
    assert A.ExportInv(u.arc.d, u.arc.threads[t]);
    ExportedExactly(u.arc.d, u.arc.threads[t]);
  }

  // ---------------------------------------------------------------- progress

  /** In Write, in the cleanup it leads to, in disableWrites, or done. */
  predicate OnWritePath(q: A.Thread) {
    !q.ExportStart? && !q.ExportShared? && !q.ExportInside? && !A.Exporting(q)
  }

  lemma StaysOnWritePath(d: A.Shared, k: A.Locks, q: A.Thread, l: A.Label)
    requires A.CanMove(d, k, q, l) && OnWritePath(q)
    ensures OnWritePath(A.Moved(d, k, q, l).q)
  {
  }

  ghost predicate WriterOnPath(s: Pipe) {
    s.writer.Some? ==> s.writer.value in s.arc.threads && OnWritePath(s.arc.threads[s.writer.value])
  }

  lemma WriterStep(s: Pipe, l: Label)
    requires WriterOnPath(s) && Enabled(s, l)
    ensures WriterOnPath(Next(s, l))
  {
    if l.Archive? && !l.a.Arrive? && s.writer == Some(l.a.t) {
      StaysOnWritePath(s.arc.d, s.arc.k, s.arc.threads[l.a.t], l.a);
    }
  }

  lemma {:induction false} WriterRun(run: Run, i: nat)
    requires IsRun(run) && i < |run.states|
    ensures WriterOnPath(run.states[i])
  {
    if i > 0 {
      WriterRun(run, i - 1);
      WriterStep(run.states[i - 1], run.labels[i - 1]);
    }
  }

  lemma {:induction false} NewTid(used: set<A.Tid>) returns (t: A.Tid)
    ensures forall x :: x in used ==> x < t
    decreases used
  {
    if used == {} {
      t := 0;
    } else {
      var x :| x in used;
      var rest := used - {x};
      var above := NewTid(rest);
      t := if above > x then above else x + 1;
      assert forall y :: y in used ==> y == x || y in rest;
    }
  }

  /** The worker is never stuck with a record: in every run its write can begin, or is under
      way and some thread of the archive can move, or is over and the record counts as
      handed over. None of these steps waits for a client of the queue. */
  lemma RecordMoves(run: Run, i: nat) returns (l: Label)
    requires IsRun(run) && i < |run.states| && HoldsRecord(run.states[i].log)
    ensures Enabled(run.states[i], l)
    ensures l.BeginWrite? || l.EndWrite? || (l.Archive? && !l.a.Arrive?)
    ensures run.states[i].writer == None <==> l.BeginWrite?
  {
    var s := run.states[i];
    if s.writer == None {
      var t := NewTid(s.arc.threads.Keys);
      return BeginWrite(t);
    }
    WriterRun(run, i);
    if s.arc.threads[s.writer.value].Done? {
      return EndWrite;
    }
    RunInv(run, i);
    var a := A.SomeMoves(s.arc, s.writer.value);
    return Archive(a);
  }

  // ---------------------------------------------------------------- closing

  /** What became of a record in the archive: it is in its file, the file has been pruned, or
      archive writes were off. */
  ghost predicate Settled(d: A.Shared, f: A.Fate, record: Bytes) {
    && f.data == record
    && (f.Stored? ==> A.StoredIn(f, d.dir) || f.name in d.removed)
    && (f.Skipped? ==> d.closed || d.writeDisabled)
  }

  lemma FateSettled(d: A.Shared, k: nat)
    requires A.FilesInv(d) && k < |d.log|
    ensures Settled(d, d.log[k], d.log[k].data)
  {
    assert A.FateInv(d.log[k], d.dir, d.removed, d.made);
  }

  /** With the worker gone the fates are exactly those of the accepted records. */
  lemma GoneFates(u: Pipe)
    requires Q.OrderInv(u.log.d) && FatesMatch(u) && u.log.d.worker.Gone?
    ensures |u.arc.d.log| == |u.log.d.accepted|
    ensures forall k :: 0 <= k < |u.arc.d.log| ==> u.arc.d.log[k].data == u.log.d.accepted[k]
  {
    assert u.log.d.handed + [] + Q.RecordsIn([]) == u.log.d.handed;
    assert u.log.d.handed + [] == u.log.d.handed;
  }

  lemma CloseGone(s: Q.State, c: Q.Id)
    requires Q.LogInv(s) && c in s.clients && s.clients[c] == Q.CloseDone(true)
    ensures s.d.worker.Gone?
  {
    assert Q.ClientInv(s.d, c, s.clients[c]);
  }

  /** AsyncStore.Close: when a close has seen the worker end, every record ever accepted has,
      in the order they were accepted, its fate in the archive: it is in its file, or its file has
      been pruned, or archive writes were off. */
  lemma CloseSettlesAccepted(run: Run, i: nat, c: Q.Id)
    requires IsRun(run) && i < |run.states|
    requires c in run.states[i].log.clients && run.states[i].log.clients[c] == Q.CloseDone(true)
    ensures var d, accepted := run.states[i].arc.d, run.states[i].log.d.accepted;
      && |d.log| == |accepted|
      && forall k :: 0 <= k < |accepted| ==> Settled(d, d.log[k], accepted[k])
  {
    RunInv(run, i);
    var u := run.states[i];
    CloseGone(u.log, c);
    GoneFates(u);
    forall k | 0 <= k < |u.arc.d.log| ensures Settled(u.arc.d, u.arc.d.log[k], u.log.d.accepted[k]) {
      FateSettled(u.arc.d, k);
    }
  }
}
