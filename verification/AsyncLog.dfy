/**
  The asynchronous log queue: writers, flushes and closers run interleaved with one
  worker that hands records to the archive.

  A step is one critical section or one channel operation. `Write` checks the channel's
  length and sends while it holds the mutex, so it is cut into several steps; the worker
  receives without the mutex and may take a record before its writer has counted it.
 */
module AsyncLog {
  import opened Optional
  import opened Records

  const QUEUE_RECORDS: nat := 1024
  const QUEUE_BYTES: nat := 8388608

  type Id = nat

  /** An archiveJob: a record, or the barrier of the flush with that id. */
  datatype Job = Record(data: Bytes) | Barrier(id: Id)

  /** `Got` has received a job; `Handed` has passed its record to the archive but not
      yet deducted its length. */
  datatype Worker = Idle | Got(job: Job) | Handed(data: Bytes) | Gone

  datatype Client =
    | WriteArrived(data: Bytes) | WriteLocked(data: Bytes) | WriteFits(data: Bytes) | WriteRoom(data: Bytes)
    | WriteSent(data: Bytes) | WriteRefused | WriteDone(accepted: bool)
    | FlushTrying | FlushSleeping | FlushQueued | FlushDone(ok: bool)
    | CloseArrived | CloseWaiting | CloseDone(ok: bool)

  /** The queue, its accounting and the worker. `accepted`, `handed`, `openWrites` (writes
      that found the log open), `passed` (barriers closed) and `mark` (how many records had
      been accepted when a barrier was queued) are histories. */
  datatype Shared = Shared(queue: seq<Job>, closed: bool, queuedBytes: int, dropped: nat, worker: Worker,
                           accepted: seq<Bytes>, handed: seq<Bytes>, openWrites: nat,
                           passed: set<Id>, mark: map<Id, nat>)

  datatype State = State(d: Shared, mu: Option<Id>, clients: map<Id, Client>)

  datatype Label =
    | ArriveWrite(c: Id, data: Bytes) | ArriveFlush(c: Id) | ArriveClose(c: Id)
    | WriteLock(c: Id) | WriteDecide(c: Id) | WriteCapacity(c: Id) | WriteSend(c: Id) | WriteCount(c: Id) | WriteUnlock(c: Id)
    | FlushTry(c: Id) | FlushTick(c: Id) | FlushGiveUp(c: Id) | FlushReturn(c: Id)
    | CloseQueue(c: Id) | CloseReturn(c: Id) | CloseTimeout(c: Id)
    | Receive | Handle | Deduct | Exit

  const Empty := Shared([], false, 0, 0, Idle, [], [], 0, {}, map[])
  const Init := State(Empty, None, map[])

  predicate InsideLock(q: Client) {
    q.WriteLocked? || q.WriteFits? || q.WriteRoom? || q.WriteSent? || q.WriteRefused?
  }

  predicate Arrives(l: Label) { l.ArriveWrite? || l.ArriveFlush? || l.ArriveClose? }

  predicate ByWorker(l: Label) { l.Receive? || l.Handle? || l.Deduct? || l.Exit? }

  function Newcomer(l: Label): Client
    requires Arrives(l)
  {
    match l
    case ArriveWrite(_, data) => WriteArrived(data)
    case ArriveFlush(_) => FlushTrying
    case ArriveClose(_) => CloseArrived
  }

  predicate CanMove(d: Shared, mu: Option<Id>, q: Client, l: Label) {
    match l
    case WriteLock(_) => q.WriteArrived? && mu == None
    case WriteDecide(_) => q.WriteLocked?
    case WriteCapacity(_) => q.WriteFits?
    // a send on a full channel blocks and a send on a closed one panics
    case WriteSend(_) => q.WriteRoom? && |d.queue| < QUEUE_RECORDS && !d.closed
    case WriteCount(_) => q.WriteSent?
    case WriteUnlock(_) => q.WriteRefused?
    case FlushTry(_) => q.FlushTrying? && mu == None
    case FlushTick(_) => q.FlushSleeping?
    case FlushGiveUp(_) => q.FlushSleeping? || q.FlushQueued?
    case FlushReturn(c) => q.FlushQueued? && c in d.passed
    case CloseQueue(_) => q.CloseArrived? && mu == None
    case CloseReturn(_) => q.CloseWaiting? && d.worker.Gone?
    case CloseTimeout(_) => q.CloseWaiting?
    case _ => false
  }

  datatype Move = Move(d: Shared, mu: Option<Id>, q: Client)

  function Moved(d: Shared, mu: Option<Id>, q: Client, l: Label): Move
    requires CanMove(d, mu, q, l)
  {
    match l
    case WriteLock(c) => Move(d, Some(c), WriteLocked(q.data))
    case WriteDecide(_) =>
      var open := if d.closed then d else d.(openWrites := d.openWrites + 1);
      if d.closed then Move(open, mu, WriteRefused)
      else if d.queuedBytes + |q.data| > QUEUE_BYTES then Move(open.(dropped := d.dropped + 1), mu, WriteRefused)
      else Move(open, mu, WriteFits(q.data))
    case WriteCapacity(_) =>
      if |d.queue| == QUEUE_RECORDS then Move(d.(dropped := d.dropped + 1), mu, WriteRefused)
      else Move(d, mu, WriteRoom(q.data))
    case WriteSend(_) =>
      Move(d.(queue := d.queue + [Record(q.data)], accepted := d.accepted + [q.data]), mu, WriteSent(q.data))
    case WriteCount(_) => Move(d.(queuedBytes := d.queuedBytes + |q.data|), None, WriteDone(true))
    case WriteUnlock(_) => Move(d, None, WriteDone(false))
    case FlushTry(c) =>
      if d.closed then Move(d, mu, FlushDone(false))
      else if |d.queue| < QUEUE_RECORDS then
        Move(d.(queue := d.queue + [Barrier(c)], mark := d.mark[c := |d.accepted|]), mu, FlushQueued)
      else Move(d, mu, FlushSleeping)
    case FlushTick(_) => Move(d, mu, FlushTrying)
    case FlushGiveUp(_) => Move(d, mu, FlushDone(false))
    case FlushReturn(_) => Move(d, mu, FlushDone(true))
    case CloseQueue(_) => Move(d.(closed := true), mu, CloseWaiting)
    case CloseReturn(_) => Move(d, mu, CloseDone(true))
    case CloseTimeout(_) => Move(d, mu, CloseDone(false))
  }

  predicate WorkerCanMove(d: Shared, mu: Option<Id>, l: Label) {
    match l
    case Receive => d.worker.Idle? && d.queue != []
    case Handle => d.worker.Got?
    case Deduct => d.worker.Handed? && mu == None
    case Exit => d.worker.Idle? && d.queue == [] && d.closed
    case _ => false
  }

  function WorkerMoved(d: Shared, mu: Option<Id>, l: Label): Shared
    requires WorkerCanMove(d, mu, l)
  {
    match l
    case Receive => d.(worker := Got(d.queue[0]), queue := d.queue[1..])
    case Handle =>
      (match d.worker.job
       case Record(data) => d.(worker := Handed(data), handed := d.handed + [data])
       case Barrier(id) => d.(worker := Idle, passed := d.passed + {id}))
    case Deduct => d.(worker := Idle, queuedBytes := d.queuedBytes - |d.worker.data|)
    case Exit => d.(worker := Gone)
  }

  predicate Enabled(s: State, l: Label) {
    if ByWorker(l) then WorkerCanMove(s.d, s.mu, l)
    else if Arrives(l) then l.c !in s.clients
    else l.c in s.clients && CanMove(s.d, s.mu, s.clients[l.c], l)
  }

  function Next(s: State, l: Label): State
    requires Enabled(s, l)
  {
    if ByWorker(l) then s.(d := WorkerMoved(s.d, s.mu, l))
    else if Arrives(l) then s.(clients := s.clients[l.c := Newcomer(l)])
    else
      var m := Moved(s.d, s.mu, s.clients[l.c], l);
      State(m.d, m.mu, s.clients[l.c := m.q])
  }

  datatype Run = Run(states: seq<State>, labels: seq<Label>)

  ghost predicate IsRun(run: Run) {
    && |run.states| == |run.labels| + 1
    && run.states[0] == Init
    && forall i :: 0 <= i < |run.labels| ==>
         Enabled(run.states[i], run.labels[i]) && run.states[i + 1] == Next(run.states[i], run.labels[i])
  }

  // -------------------------------------------------------------- invariants

  function RecordsIn(queue: seq<Job>): seq<Bytes> {
    if queue == [] then []
    else (match queue[0] case Record(data) => [data] case Barrier(_) => []) + RecordsIn(queue[1..])
  }

  /** The record the worker has received and not yet handed over. */
  function InHand(w: Worker): seq<Bytes> {
    if w.Got? && w.job.Record? then [w.job.data] else []
  }

  /** Accepted records whose length the worker has not yet deducted, oldest first. */
  function Undeducted(d: Shared): seq<Bytes> {
    (if d.worker.Handed? then [d.worker.data] else InHand(d.worker)) + RecordsIn(d.queue)
  }

  /** What has been handed over, then what is in hand, then what is queued: in that order
      exactly the accepted records. */
  ghost predicate OrderInv(d: Shared) {
    && d.handed + InHand(d.worker) + RecordsIn(d.queue) == d.accepted
    && |d.queue| <= QUEUE_RECORDS
    && (d.worker.Gone? ==> d.closed && d.queue == [])
  }

  /** Records accepted before the barrier at position `i` of the queue. */
  ghost predicate BarrierAt(d: Shared, i: nat)
    requires i < |d.queue| && d.queue[i].Barrier?
  {
    d.queue[i].id in d.mark &&
    d.mark[d.queue[i].id] == |d.handed| + |InHand(d.worker)| + |RecordsIn(d.queue[..i])|
  }

  ghost predicate BarrierInv(d: Shared) {
    && (forall i :: 0 <= i < |d.queue| && d.queue[i].Barrier? ==> BarrierAt(d, i))
    && (d.worker.Got? && d.worker.job.Barrier? ==>
          d.worker.job.id in d.mark && d.mark[d.worker.job.id] == |d.handed|)
    && (forall b :: b in d.passed ==> b in d.mark && d.mark[b] <= |d.handed|)
  }

  /** Accounting as seen while `q` is the writer that holds the mutex, if there is one. */
  ghost predicate BytesInv(d: Shared, q: Option<Client>) {
    var pending := if q.Some? && q.value.WriteSent? then |q.value.data| else 0;
    && d.queuedBytes + pending == Total(Undeducted(d))
    && 0 <= d.queuedBytes
    && d.queuedBytes + pending <= QUEUE_BYTES
    && (q.Some? && (q.value.WriteFits? || q.value.WriteRoom?) ==>
          !d.closed && d.queuedBytes + |q.value.data| <= QUEUE_BYTES)
    && (q.Some? && q.value.WriteRoom? ==> |d.queue| < QUEUE_RECORDS)
    && (q.Some? && q.value.WriteSent? ==>
          Undeducted(d) != [] && Undeducted(d)[|Undeducted(d)| - 1] == q.value.data)
    && d.openWrites == |d.accepted| + d.dropped + (if q.Some? && (q.value.WriteFits? || q.value.WriteRoom?) then 1 else 0)
  }

  function Holder(s: State): Option<Client> {
    if s.mu.Some? && s.mu.value in s.clients then Some(s.clients[s.mu.value]) else None
  }

  ghost predicate MutexInv(s: State) {
    && (s.mu.Some? ==> s.mu.value in s.clients)
    && (forall c :: c in s.clients ==> (InsideLock(s.clients[c]) <==> s.mu == Some(c)))
  }

  /** What a finished or waiting client knows. */
  ghost predicate ClientInv(d: Shared, c: Id, q: Client) {
    && (q.FlushQueued? ==> c in d.mark)
    && (q == FlushDone(true) ==> c in d.passed)
    && (q.CloseWaiting? ==> d.closed)
    && (q == CloseDone(true) ==> d.worker.Gone?)
    && (q.FlushTrying? || q.FlushSleeping? ==> c !in d.mark)
    && (q.WriteArrived? || InsideLock(q) || q.WriteDone? || q.CloseArrived? || q.CloseWaiting? || q.CloseDone? ==> c !in d.mark)
  }

  ghost predicate LogInv(s: State) {
    && MutexInv(s) && OrderInv(s.d) && BarrierInv(s.d) && BytesInv(s.d, Holder(s))
    && (forall c :: c in s.clients ==> ClientInv(s.d, c, s.clients[c]))
    && (forall c :: c in s.d.mark ==> c in s.clients)
  }

  // ------------------------------------------------------------- preservation

  lemma {:induction false} RecordsAppend(a: seq<Job>, b: seq<Job>)
    ensures RecordsIn(a + b) == RecordsIn(a) + RecordsIn(b)
  {
    if a == [] {
      assert a + b == b;
    } else {
      assert (a + b)[1..] == a[1..] + b;
      RecordsAppend(a[1..], b);
    }
  }

  /** The records of an enlarged queue. */
  lemma Enqueued(d: Shared, j: Job)
    ensures RecordsIn(d.queue + [j]) == RecordsIn(d.queue) + (if j.Record? then [j.data] else [])
    ensures forall i :: 0 <= i <= |d.queue| ==> (d.queue + [j])[..i] == d.queue[..i]
  {
    RecordsAppend(d.queue, [j]);
    assert RecordsIn([j]) == if j.Record? then [j.data] else [];
  }

  lemma ClientOrder(d: Shared, mu: Option<Id>, q: Client, l: Label)
    requires CanMove(d, mu, q, l) && OrderInv(d)
    ensures OrderInv(Moved(d, mu, q, l).d)
  {
    if l.WriteSend? {
      Enqueued(d, Record(q.data));
    } else if l.FlushTry? {
      Enqueued(d, Barrier(l.c));
    }
  }

  lemma WorkerOrder(d: Shared, mu: Option<Id>, l: Label)
    requires WorkerCanMove(d, mu, l) && OrderInv(d)
    ensures OrderInv(WorkerMoved(d, mu, l))
  {
  }

  /** A job put at the end of the queue disturbs no barrier already in it. */
  lemma EnqueuedBarrier(d: Shared, e: Shared, j: Job, i: nat)
    requires BarrierInv(d) && i < |d.queue| && d.queue[i].Barrier?
    requires e.queue == d.queue + [j] && e.handed == d.handed && e.worker == d.worker
    requires forall x :: x in d.mark ==> x in e.mark && e.mark[x] == d.mark[x]
    ensures BarrierAt(e, i)
  {
    assert BarrierAt(d, i);
    assert e.queue[..i] == d.queue[..i];
  }

  lemma RecordBarrier(d: Shared, e: Shared, data: Bytes)
    requires BarrierInv(d) && e.queue == d.queue + [Record(data)] && e.handed == d.handed && e.worker == d.worker
    requires e.mark == d.mark && e.passed == d.passed
    ensures BarrierInv(e)
  {
    forall i | 0 <= i < |e.queue| && e.queue[i].Barrier? ensures BarrierAt(e, i) {
      EnqueuedBarrier(d, e, Record(data), i);
    }
  }

  lemma FlushBarrier(d: Shared, e: Shared, c: Id)
    requires OrderInv(d) && BarrierInv(d) && c !in d.mark
    requires e.queue == d.queue + [Barrier(c)] && e.handed == d.handed && e.worker == d.worker
    requires e.mark == d.mark[c := |d.accepted|] && e.passed == d.passed
    ensures BarrierInv(e)
  {
    forall i | 0 <= i < |e.queue| && e.queue[i].Barrier? ensures BarrierAt(e, i) {
      if i < |d.queue| {
        EnqueuedBarrier(d, e, Barrier(c), i);
      } else {
        assert e.queue[..i] == d.queue;
      }
    }
  }

  lemma ClientBarrier(d: Shared, mu: Option<Id>, q: Client, l: Label)
    requires CanMove(d, mu, q, l) && OrderInv(d) && BarrierInv(d)
    requires l.FlushTry? ==> l.c !in d.mark
    ensures BarrierInv(Moved(d, mu, q, l).d)
  {
    var m := Moved(d, mu, q, l).d;
    if l.WriteSend? {
      RecordBarrier(d, m, q.data);
    } else if l.FlushTry? && m != d {
      FlushBarrier(d, m, l.c);
    } else {
      BarrierFrame(d, m);
    }
  }

  lemma BarrierFrame(d: Shared, e: Shared)
    requires BarrierInv(d) && e.queue == d.queue && e.handed == d.handed && e.worker == d.worker && e.mark == d.mark && e.passed == d.passed
    ensures BarrierInv(e)
  {
    forall i | 0 <= i < |e.queue| && e.queue[i].Barrier? ensures BarrierAt(e, i) {
      assert BarrierAt(d, i);
    }
  }

  lemma WorkerBarrier(d: Shared, mu: Option<Id>, l: Label)
    requires WorkerCanMove(d, mu, l) && OrderInv(d) && BarrierInv(d)
    ensures BarrierInv(WorkerMoved(d, mu, l))
  {
    var m := WorkerMoved(d, mu, l);
    if l.Receive? && d.queue[0].Barrier? {
      assert BarrierAt(d, 0);
    }
    forall i | 0 <= i < |m.queue| && m.queue[i].Barrier? ensures BarrierAt(m, i) {
      if l.Receive? {
        assert BarrierAt(d, i + 1);
        assert d.queue[..i + 1][1..] == m.queue[..i];
      } else {
        assert BarrierAt(d, i);
      }
    }
  }

  lemma SendUndeducted(d: Shared, mu: Option<Id>, q: Client, l: Label)
    requires CanMove(d, mu, q, l) && l.WriteSend?
    ensures var after := Undeducted(Moved(d, mu, q, l).d);
      after == Undeducted(d) + [q.data] && Total(after) == Total(Undeducted(d)) + |q.data|
  {
    Enqueued(d, Record(q.data));
    TotalAppend(Undeducted(d), [q.data]);
    assert Total([q.data]) == |q.data|;
  }

  lemma OtherUndeducted(d: Shared, mu: Option<Id>, q: Client, l: Label)
    requires CanMove(d, mu, q, l) && !l.WriteSend?
    ensures Undeducted(Moved(d, mu, q, l).d) == Undeducted(d)
  {
    if l.FlushTry? {
      Enqueued(d, Barrier(l.c));
    }
  }

  lemma ClientBytes(d: Shared, mu: Option<Id>, q: Client, l: Label)
    requires CanMove(d, mu, q, l) && OrderInv(d)
    requires BytesInv(d, if InsideLock(q) then Some(q) else None)
    requires InsideLock(q) || mu == None
    ensures var m := Moved(d, mu, q, l); BytesInv(m.d, if InsideLock(m.q) then Some(m.q) else None)
  {
    if l.WriteSend? {
      SendUndeducted(d, mu, q, l);
    } else {
      OtherUndeducted(d, mu, q, l);
    }
  }

  lemma WorkerBytes(d: Shared, mu: Option<Id>, q: Option<Client>, l: Label)
    requires WorkerCanMove(d, mu, l) && OrderInv(d) && BytesInv(d, q)
    requires mu == None ==> q == None
    ensures BytesInv(WorkerMoved(d, mu, l), q)
  {
    if l.Deduct? {
      assert Undeducted(d) == [d.worker.data] + RecordsIn(d.queue);
      assert Undeducted(WorkerMoved(d, mu, l)) == RecordsIn(d.queue);
    } else {
      assert Undeducted(WorkerMoved(d, mu, l)) == Undeducted(d);
    }
  }

  lemma MutexStep(s: State, l: Label)
    requires MutexInv(s) && Enabled(s, l)
    ensures MutexInv(Next(s, l))
  {
  }

  /** The step of a client leaves the mutex holder alone unless the client is that holder
      or takes the free mutex for itself. */
  lemma HolderStep(s: State, l: Label)
    requires MutexInv(s) && Enabled(s, l) && !ByWorker(l) && !Arrives(l)
    ensures var m := Moved(s.d, s.mu, s.clients[l.c], l);
      Holder(Next(s, l)) == if InsideLock(m.q) then Some(m.q) else if s.mu == Some(l.c) then None else Holder(s)
  {
  }

  lemma BytesStep(s: State, l: Label)
    requires LogInv(s) && Enabled(s, l)
    ensures BytesInv(Next(s, l).d, Holder(Next(s, l)))
  {
    if ByWorker(l) {
      WorkerBytes(s.d, s.mu, Holder(s), l);
    } else if Arrives(l) {
      assert Holder(Next(s, l)) == Holder(s);
    } else {
      HolderStep(s, l);
      var q := s.clients[l.c];
      if InsideLock(q) || s.mu == None {
        ClientBytes(s.d, s.mu, q, l);
      } else {
        assert Moved(s.d, s.mu, q, l).d == s.d;
      }
    }
  }

  /** What a step may do to the facts that clients other than `c` rely on. */
  ghost predicate Widens(d: Shared, e: Shared, c: Option<Id>) {
    && (d.closed ==> e.closed) && (d.worker.Gone? ==> e.worker.Gone?) && d.passed <= e.passed
    && (forall x :: Some(x) != c ==> (x in d.mark <==> x in e.mark))
  }

  lemma MoveWidens(d: Shared, mu: Option<Id>, q: Client, l: Label)
    requires CanMove(d, mu, q, l)
    ensures Widens(d, Moved(d, mu, q, l).d, Some(l.c))
  {
  }

  lemma WorkerWidens(d: Shared, mu: Option<Id>, l: Label)
    requires WorkerCanMove(d, mu, l)
    ensures Widens(d, WorkerMoved(d, mu, l), None)
  {
  }

  lemma OthersKnow(d: Shared, e: Shared, who: Option<Id>, c: Id, q: Client)
    requires Widens(d, e, who) && Some(c) != who && ClientInv(d, c, q)
    ensures ClientInv(e, c, q)
  {
  }

  lemma OwnKnows(d: Shared, mu: Option<Id>, q: Client, l: Label)
    requires CanMove(d, mu, q, l) && ClientInv(d, l.c, q)
    ensures ClientInv(Moved(d, mu, q, l).d, l.c, Moved(d, mu, q, l).q)
  {
  }

  lemma ClientStep(s: State, l: Label, c: Id)
    requires Enabled(s, l) && c in Next(s, l).clients
    requires if c in s.clients then ClientInv(s.d, c, s.clients[c]) else c !in s.d.mark
    ensures ClientInv(Next(s, l).d, c, Next(s, l).clients[c])
  {
    if ByWorker(l) {
      WorkerWidens(s.d, s.mu, l);
      OthersKnow(s.d, Next(s, l).d, None, c, s.clients[c]);
    } else if !Arrives(l) {
      if c == l.c {
        OwnKnows(s.d, s.mu, s.clients[c], l);
      } else {
        MoveWidens(s.d, s.mu, s.clients[l.c], l);
        OthersKnow(s.d, Next(s, l).d, Some(l.c), c, s.clients[c]);
      }
    }
  }

  lemma LogStep(s: State, l: Label)
    requires LogInv(s) && Enabled(s, l)
    ensures LogInv(Next(s, l))
  {
    MutexStep(s, l);
    BytesStep(s, l);
    if ByWorker(l) {
      WorkerOrder(s.d, s.mu, l);
      WorkerBarrier(s.d, s.mu, l);
    } else if !Arrives(l) {
      assert ClientInv(s.d, l.c, s.clients[l.c]);
      ClientOrder(s.d, s.mu, s.clients[l.c], l);
      ClientBarrier(s.d, s.mu, s.clients[l.c], l);
    }
    forall c | c in Next(s, l).clients ensures ClientInv(Next(s, l).d, c, Next(s, l).clients[c]) {
      ClientStep(s, l, c);
    }
  }

  // ------------------------------------------------------- the main results

  lemma {:induction false} RunInv(run: Run, i: nat)
    requires IsRun(run) && i < |run.states|
    ensures LogInv(run.states[i])
  {
    if i > 0 {
      RunInv(run, i - 1);
      LogStep(run.states[i - 1], run.labels[i - 1]);
    }
  }

  /** Histories only grow, marks stay, and a new mark covers all that was accepted. */
  ghost predicate Grows(s: State, t: State) {
    && s.d.accepted <= t.d.accepted && s.d.handed <= t.d.handed
    && (forall c :: c in s.d.mark ==> c in t.d.mark && t.d.mark[c] == s.d.mark[c])
    && (forall c :: c in t.d.mark && c !in s.d.mark ==> t.d.mark[c] >= |s.d.accepted|)
  }

  lemma GrowsStep(s: State, l: Label)
    requires LogInv(s) && Enabled(s, l)
    ensures Grows(s, Next(s, l))
  {
    if !ByWorker(l) && !Arrives(l) {
      assert ClientInv(s.d, l.c, s.clients[l.c]);
    }
  }

  lemma GrowsTrans(s: State, t: State, u: State)
    requires Grows(s, t) && Grows(t, u)
    ensures Grows(s, u)
  {
  }

  lemma {:induction false} Persists(run: Run, i: nat, j: nat)
    requires IsRun(run) && i <= j < |run.states|
    ensures Grows(run.states[i], run.states[j])
    decreases j - i
  {
    if i < j {
      RunInv(run, i);
      GrowsStep(run.states[i], run.labels[i]);
      Persists(run, i + 1, j);
      GrowsTrans(run.states[i], run.states[i + 1], run.states[j]);
    }
  }

  /** The records handed to the archive are a prefix, in order, of the accepted ones, and
      the rest is what the worker holds and what is queued. */
  lemma HandedIsPrefix(run: Run, i: nat)
    requires IsRun(run) && i < |run.states|
    ensures var d := run.states[i].d;
      d.handed <= d.accepted && d.accepted[|d.handed|..] == InHand(d.worker) + RecordsIn(d.queue)
  {
    RunInv(run, i);
  }

  /** When a flush that had not queued its barrier at `i` has returned nil at `j`, every
      record accepted by `i`, and indeed by its barrier, has been handed over at `j`. */
  lemma FlushCovers(run: Run, i: nat, j: nat, c: Id)
    requires IsRun(run) && i <= j < |run.states|
    requires c in run.states[i].clients && (run.states[i].clients[c].FlushTrying? || run.states[i].clients[c].FlushSleeping?)
    requires c in run.states[j].clients && run.states[j].clients[c] == FlushDone(true)
    ensures run.states[i].d.accepted <= run.states[j].d.handed
    ensures c in run.states[j].d.mark && |run.states[i].d.accepted| <= run.states[j].d.mark[c] <= |run.states[j].d.handed|
  {
    RunInv(run, i);
    RunInv(run, j);
    Persists(run, i, j);
    assert ClientInv(run.states[i].d, c, run.states[i].clients[c]);
    assert ClientInv(run.states[j].d, c, run.states[j].clients[c]);
    HandedIsPrefix(run, j);
  }

  /** When Close has seen the worker finish, every accepted record has been handed over. */
  lemma CloseDrains(run: Run, i: nat, c: Id)
    requires IsRun(run) && i < |run.states|
    requires c in run.states[i].clients && run.states[i].clients[c] == CloseDone(true)
    ensures run.states[i].d.handed == run.states[i].d.accepted
  {
    RunInv(run, i);
    assert ClientInv(run.states[i].d, c, run.states[i].clients[c]);
  }

  lemma GoneStep(s: State, l: Label)
    requires LogInv(s) && Enabled(s, l) && s.d.worker.Gone?
    ensures Next(s, l).d.worker.Gone? && Next(s, l).d.accepted == s.d.accepted
  {
  }

  /** Nothing is accepted after the drain: the log is final. */
  lemma {:induction false} FinalAfterDrain(run: Run, i: nat, j: nat)
    requires IsRun(run) && i <= j < |run.states| && run.states[i].d.worker.Gone?
    ensures run.states[j].d.worker.Gone? && run.states[j].d.accepted == run.states[i].d.accepted
    decreases j - i
  {
    if i < j {
      RunInv(run, i);
      GoneStep(run.states[i], run.labels[i]);
      FinalAfterDrain(run, i + 1, j);
    }
  }

  /** Seen with the mutex free, queuedBytes is the total length of the accepted records
      not yet deducted; it is between 0 and the limit at every moment. */
  lemma QueuedBytesExact(run: Run, i: nat)
    requires IsRun(run) && i < |run.states|
    ensures run.states[i].mu == None ==> run.states[i].d.queuedBytes == Total(Undeducted(run.states[i].d))
    ensures 0 <= run.states[i].d.queuedBytes <= QUEUE_BYTES
    ensures Total(Undeducted(run.states[i].d)) <= QUEUE_BYTES
  {
    RunInv(run, i);
  }

  /** A writer that has found room can send at once, whatever the worker did meanwhile,
      and the channel is not closed under it. */
  lemma SendNeverBlocks(run: Run, i: nat, c: Id)
    requires IsRun(run) && i < |run.states|
    requires c in run.states[i].clients && run.states[i].clients[c].WriteRoom?
    ensures Enabled(run.states[i], WriteSend(c)) && !run.states[i].d.closed
  {
    RunInv(run, i);
  }

  /** Every write that found the log open has accepted its record or added one to the drop
      count, once it has left the mutex. */
  lemma EveryWriteCounted(run: Run, i: nat)
    requires IsRun(run) && i < |run.states| && run.states[i].mu == None
    ensures run.states[i].d.openWrites == |run.states[i].d.accepted| + run.states[i].d.dropped
  {
    RunInv(run, i);
  }

  // ------------------------------------------------------- one write by itself

  /** The step is taken by client `c`. */
  predicate Own(l: Label, c: Id) { !ByWorker(l) && !Arrives(l) && l.c == c }

  /** How many records client `c` has accepted, and how many drops it has counted, by its own
      steps between two states of a run. */
  ghost function AcceptedBy(run: Run, c: Id, i: nat, j: nat): int
    requires IsRun(run) && i <= j < |run.states|
    decreases j - i
  {
    if i == j then 0
    else AcceptedBy(run, c, i, j - 1) +
         if Own(run.labels[j - 1], c) then |run.states[j].d.accepted| - |run.states[j - 1].d.accepted| else 0
  }

  ghost function DroppedBy(run: Run, c: Id, i: nat, j: nat): int
    requires IsRun(run) && i <= j < |run.states|
    decreases j - i
  {
    if i == j then 0
    else DroppedBy(run, c, i, j - 1) +
         if Own(run.labels[j - 1], c) then run.states[j].d.dropped - run.states[j - 1].d.dropped else 0
  }

  /** What a writer has done since it looked at the queue, by where it is; `closed` says what
      it saw. */
  predicate Account(q: Client, closed: bool, accepted: int, dropped: int) {
    match q
    case WriteFits(_) => !closed && accepted == 0 && dropped == 0
    case WriteRoom(_) => !closed && accepted == 0 && dropped == 0
    case WriteSent(_) => !closed && accepted == 1 && dropped == 0
    case WriteRefused => accepted == 0 && dropped == if closed then 0 else 1
    case WriteDone(ok) =>
      if ok then !closed && accepted == 1 && dropped == 0 else accepted == 0 && dropped == if closed then 0 else 1
    case _ => false
  }

  lemma AccountDecides(d: Shared, mu: Option<Id>, q: Client, l: Label)
    requires CanMove(d, mu, q, l) && l.WriteDecide?
    ensures var m := Moved(d, mu, q, l); Account(m.q, d.closed, |m.d.accepted| - |d.accepted|, m.d.dropped - d.dropped)
  {
  }

  lemma AccountMoves(d: Shared, mu: Option<Id>, q: Client, l: Label, closed: bool, accepted: int, dropped: int)
    requires CanMove(d, mu, q, l) && Account(q, closed, accepted, dropped)
    ensures var m := Moved(d, mu, q, l);
      Account(m.q, closed, accepted + |m.d.accepted| - |d.accepted|, dropped + m.d.dropped - d.dropped)
  {
  }

  /** Steps of others leave a client where it is. */
  lemma OthersStay(s: State, l: Label, c: Id)
    requires Enabled(s, l) && c in s.clients && !Own(l, c)
    ensures c in Next(s, l).clients && Next(s, l).clients[c] == s.clients[c]
  {
  }

  lemma {:induction false} AccountHolds(run: Run, c: Id, i: nat, j: nat)
    requires IsRun(run) && i < j < |run.states| && run.labels[i] == WriteDecide(c)
    ensures c in run.states[j].clients
    ensures Account(run.states[j].clients[c], run.states[i].d.closed, AcceptedBy(run, c, i, j), DroppedBy(run, c, i, j))
    decreases j - i
  {
    var s, l := run.states[j - 1], run.labels[j - 1];
    assert run.states[j] == Next(s, l);
    if j == i + 1 {
      AccountDecides(s.d, s.mu, s.clients[c], l);
      assert AcceptedBy(run, c, i, i) == 0 && DroppedBy(run, c, i, i) == 0;
    } else {
      AccountHolds(run, c, i, j - 1);
      if Own(l, c) {
        AccountMoves(s.d, s.mu, s.clients[c], l, run.states[i].d.closed, AcceptedBy(run, c, i, j - 1), DroppedBy(run, c, i, j - 1));
      } else {
        OthersStay(s, l, c);
      }
    }
  }

  /** Every single write: when it has returned, the writer that found the queue open has by
      its own steps accepted exactly one record or counted exactly one drop, and one that
      found it closed has done neither, whatever all the others did. */
  lemma OneWriteCounted(run: Run, c: Id, i: nat, j: nat)
    requires IsRun(run) && i < j < |run.states| && run.labels[i] == WriteDecide(c)
    requires c in run.states[j].clients && run.states[j].clients[c].WriteDone?
    ensures var accepted, dropped := AcceptedBy(run, c, i, j), DroppedBy(run, c, i, j);
      && accepted + dropped == (if run.states[i].d.closed then 0 else 1)
      && accepted == (if run.states[j].clients[c].accepted then 1 else 0)
      && dropped >= 0
  {
    AccountHolds(run, c, i, j);
  }

  // ------------------------------------------------------- accepted or dropped, exactly

  /** Why a writer that found the queue open drops its record: the bytes queued and in hand
      would exceed 8 MiB, or 1024 jobs are queued. */
  ghost predicate Overfull(s: State, l: Label) {
    || (l.WriteDecide? && l.c in s.clients && s.clients[l.c].WriteLocked? &&
        Total(Undeducted(s.d)) + |s.clients[l.c].data| > 8388608)
    || (l.WriteCapacity? && |s.d.queue| == 1024)
  }

  lemma MoveDrops(d: Shared, mu: Option<Id>, q: Client, l: Label)
    requires CanMove(d, mu, q, l)
    ensures Moved(d, mu, q, l).d.dropped == d.dropped +
      (if (l.WriteDecide? && !d.closed && d.queuedBytes + |q.data| > 8388608) || (l.WriteCapacity? && |d.queue| == 1024) then 1 else 0)
  {
  }

  /** Outside the counting of its own record a writer with the mutex sees exact accounting. */
  lemma LockedBytes(s: State, c: Id)
    requires LogInv(s) && c in s.clients && s.clients[c].WriteLocked?
    ensures s.d.queuedBytes == Total(Undeducted(s.d))
  {
    assert s.mu == Some(c);
  }

  lemma StepDrops(s: State, l: Label)
    requires LogInv(s) && Enabled(s, l)
    ensures Next(s, l).d.dropped == s.d.dropped + (if Overfull(s, l) && !s.d.closed then 1 else 0)
  {
    if !ByWorker(l) && !Arrives(l) {
      MoveDrops(s.d, s.mu, s.clients[l.c], l);
      if l.WriteDecide? {
        LockedBytes(s, l.c);
      } else if l.WriteCapacity? {
        FitsOpen(s, l.c);
      }
    }
  }

  lemma FitsOpen(s: State, c: Id)
    requires LogInv(s) && c in s.clients && s.clients[c].WriteFits?
    ensures !s.d.closed
  {
    assert s.mu == Some(c);
  }

  /** A record is dropped exactly when a writer finds an open queue overfull, and by no other
      step of anybody. */
  lemma DropsExactly(run: Run, i: nat)
    requires IsRun(run) && i < |run.labels|
    ensures run.states[i + 1].d.dropped ==
      run.states[i].d.dropped + (if Overfull(run.states[i], run.labels[i]) && !run.states[i].d.closed then 1 else 0)
  {
    RunInv(run, i);
    StepDrops(run.states[i], run.labels[i]);
  }

  /** A write that finds an open queue with room for its bytes and its job goes on to accept:
      each of its remaining steps is there to be taken, and ends with its record accepted. */
  lemma RoomAccepts(d: Shared, c: Id, data: Bytes)
    requires !d.closed && d.queuedBytes + |data| <= 8388608 && |d.queue| < 1024
    ensures WriteAlone(d, c, data).1
    ensures WriteAlone(d, c, data).0.accepted == d.accepted + [data]
    ensures WriteAlone(d, c, data).0.queue == d.queue + [Record(data)]
    ensures WriteAlone(d, c, data).0.queuedBytes == d.queuedBytes + |data| && WriteAlone(d, c, data).0.dropped == d.dropped
  {
  }

  // -------------------------------------------------------------- progress

  /** A step that the code takes by itself: no arrival and no caller that gives up. */
  predicate Unforced(l: Label) { !Arrives(l) && !l.FlushGiveUp? && !l.CloseTimeout? && !l.FlushTick? }

  lemma HolderMoves(s: State, c: Id) returns (l: Label)
    requires LogInv(s) && c in s.clients && InsideLock(s.clients[c])
    ensures Unforced(l) && Enabled(s, l)
  {
    assert s.mu == Some(c);
    match s.clients[c] {
      case WriteLocked(_) => return WriteDecide(c);
      case WriteFits(_) => return WriteCapacity(c);
      case WriteRoom(_) => return WriteSend(c);
      case WriteSent(_) => return WriteCount(c);
      case _ => return WriteUnlock(c);
    }
  }

  /** The queue never stops with work to do: unless the worker is idle on an empty, open queue
      or has gone, somebody can take a step. */
  lemma WorkerNeverStuck(run: Run, i: nat) returns (l: Label)
    requires IsRun(run) && i < |run.states|
    requires !run.states[i].d.worker.Gone?
    requires !run.states[i].d.worker.Idle? || run.states[i].d.queue != [] || run.states[i].d.closed
    ensures Unforced(l) && Enabled(run.states[i], l)
  {
    RunInv(run, i);
    var s := run.states[i];
    match s.d.worker {
      case Idle => return if s.d.queue != [] then Receive else Exit;
      case Got(_) => return Handle;
      case Handed(_) =>
        if s.mu == None {
          return Deduct;
        }
        l := HolderMoves(s, s.mu.value);
    }
  }

  // --------------------------------------------------- the object, uninterrupted

  /** The steps of one Write that nothing interrupts. */
  function WriteAlone(d: Shared, c: Id, data: Bytes): (Shared, bool) {
    var decided := Moved(d, Some(c), WriteLocked(data), WriteDecide(c));
    if decided.q.WriteRefused? then (decided.d, false)
    else
      var checked := Moved(decided.d, Some(c), decided.q, WriteCapacity(c));
      if checked.q.WriteRefused? || |d.queue| > QUEUE_RECORDS then (checked.d, false)
      else
        var sent := Moved(checked.d, Some(c), checked.q, WriteSend(c));
        (Moved(sent.d, Some(c), sent.q, WriteCount(c)).d, true)
  }

  /** The steps of one turn of the worker loop that nothing interrupts. */
  function TurnAlone(d: Shared): Shared
    requires d.worker.Idle? && d.queue != []
  {
    var handled := WorkerMoved(WorkerMoved(d, None, Receive), None, Handle);
    if handled.worker.Handed? then WorkerMoved(handled, None, Deduct) else handled
  }

  ghost predicate QuietInv(d: Shared) {
    OrderInv(d) && BarrierInv(d) && BytesInv(d, None)
  }

  lemma QuietStep(d: Shared, l: Label)
    requires WorkerCanMove(d, None, l) && QuietInv(d)
    ensures QuietInv(WorkerMoved(d, None, l))
  {
    WorkerOrder(d, None, l);
    WorkerBarrier(d, None, l);
    WorkerBytes(d, None, None, l);
  }

  lemma TurnKeeps(d: Shared)
    requires d.worker.Idle? && d.queue != [] && QuietInv(d)
    ensures QuietInv(TurnAlone(d))
  {
    QuietStep(d, Receive);
    var received := WorkerMoved(d, None, Receive);
    QuietStep(received, Handle);
    var handled := WorkerMoved(received, None, Handle);
    if handled.worker.Handed? {
      QuietStep(handled, Deduct);
    }
  }

  /** Barriers of the queue are passed or still queued. */
  ghost predicate Barred(jobs: seq<Job>, d: Shared) {
    forall j :: j in jobs && j.Barrier? ==> j.id in d.passed || j in d.queue
  }

  /** What draining a queue has done so far, and all that it has left alone. */
  ghost predicate Draining(first: Shared, d: Shared) {
    && d.closed && d.worker.Idle? && QuietInv(d)
    && d.accepted == first.accepted && d.dropped == first.dropped
    && d.handed + RecordsIn(d.queue) == first.handed + RecordsIn(first.queue)
    && Barred(first.queue, d)
  }

  lemma TurnHands(d: Shared)
    requires d.worker.Idle? && d.queue != []
    ensures var t := TurnAlone(d);
      && t.handed + RecordsIn(t.queue) == d.handed + RecordsIn(d.queue)
      && t.worker.Idle? && t.closed == d.closed && t.accepted == d.accepted && t.dropped == d.dropped
      && t.queue == d.queue[1..] && d.passed <= t.passed
      && (d.queue[0].Barrier? ==> d.queue[0].id in t.passed)
  {
  }

  lemma TurnDrains(first: Shared, d: Shared)
    requires Draining(first, d) && d.queue != []
    ensures Draining(first, TurnAlone(d)) && |TurnAlone(d).queue| < |d.queue|
  {
    TurnKeeps(d);
    TurnHands(d);
    var t := TurnAlone(d);
    forall j | j in first.queue && j.Barrier? ensures j.id in t.passed || j in t.queue {
      assert d.queue == [d.queue[0]] + d.queue[1..];
    }
  }

  /** A drained queue has handed over all that was accepted. */
  lemma Drained(first: Shared, d: Shared)
    requires Draining(first, d) && d.queue == []
    ensures d.handed == d.accepted && d.queuedBytes == 0
  {
  }

  class AsyncStore {
    const maxRecordBytes: nat
    var queue: seq<Job>
    var closed: bool
    var queuedBytes: int
    var dropped: nat
    ghost var worker: Worker
    ghost var accepted: seq<Bytes>
    ghost var handed: seq<Bytes>
    ghost var openWrites: nat
    ghost var passed: set<Id>
    ghost var mark: map<Id, nat>

    ghost function View(): Shared
      reads this
    {
      Shared(queue, closed, queuedBytes, dropped, worker, accepted, handed, openWrites, passed, mark)
    }

    constructor (maxRecordBytes: nat)
      ensures View() == Empty && this.maxRecordBytes == maxRecordBytes
    {
      this.maxRecordBytes := maxRecordBytes;
      queue, closed, queuedBytes, dropped := [], false, 0, 0;
      worker, accepted, handed, openWrites, passed, mark := Idle, [], [], 0, {}, map[];
    }

    method Write(p: Bytes, ghost c: Id) returns (n: nat)
      requires |queue| <= QUEUE_RECORDS
      modifies this
      ensures n == |p|
      ensures View() == WriteAlone(old(View()), c, TruncateRecord(p, maxRecordBytes)).0
      ensures var data := TruncateRecord(p, maxRecordBytes);
        var fits := !old(closed) && old(queuedBytes) + |data| <= 8388608 && |old(queue)| < 1024;
        && accepted == (if fits then old(accepted) + [data] else old(accepted))
        && queue == (if fits then old(queue) + [Record(data)] else old(queue))
        && queuedBytes == (if fits then old(queuedBytes) + |data| else old(queuedBytes))
        && dropped == (if fits || old(closed) then old(dropped) else old(dropped) + 1)
    {
      n := |p|;
      var data := TruncateRecord(p, maxRecordBytes);
      openWrites := if closed then openWrites else openWrites + 1;
      if closed || queuedBytes + |data| > QUEUE_BYTES {
        if !closed {
          dropped := dropped + 1;
        }
        return;
      }
      if |queue| == QUEUE_RECORDS {
        dropped := dropped + 1;
        return;
      }
      queue := queue + [Record(data)];
      accepted := accepted + [data];
      queuedBytes := queuedBytes + |data|;
    }

    /** The critical section of Flush: the barrier's non-blocking send. */
    method TryFlush(c: Id) returns (next: Client)
      modifies this
      ensures var m := Moved(old(View()), None, FlushTrying, FlushTry(c)); View() == m.d && next == m.q
      ensures next == if old(closed) then FlushDone(false) else if |old(queue)| < 1024 then FlushQueued else FlushSleeping
      ensures queue == if next == FlushQueued then old(queue) + [Barrier(c)] else old(queue)
    {
      if closed {
        return FlushDone(false);
      }
      if |queue| >= QUEUE_RECORDS {
        return FlushSleeping;
      }
      queue := queue + [Barrier(c)];
      mark := mark[c := |accepted|];
      next := FlushQueued;
    }

    method BeginClose(c: Id)
      modifies this
      ensures View() == Moved(old(View()), None, CloseArrived, CloseQueue(c)).d
      ensures closed && queue == old(queue) && accepted == old(accepted)
    {
      if !closed {
        closed := true;
      }
    }

    /** One turn of the worker loop: receive a job, hand its record over, deduct it. */
    method Turn()
      requires worker.Idle? && queue != []
      modifies this
      ensures View() == TurnAlone(old(View()))
    {
      var job := queue[0];
      queue := queue[1..];
      match job {
        case Barrier(id) => passed := passed + {id};
        case Record(data) =>
          handed := handed + [data];
          queuedBytes := queuedBytes - |data|;
      }
    }

    /** The worker loop on a closed queue: everything queued is handed over, in order, and
        every queued barrier is passed. */
    method Drain()
      requires closed && worker.Idle? && QuietInv(View())
      modifies this
      ensures handed == old(handed) + RecordsIn(old(queue)) == accepted == old(accepted)
      ensures queue == [] && queuedBytes == 0 && worker.Gone? && dropped == old(dropped)
      ensures forall j :: j in old(queue) && j.Barrier? ==> j.id in passed
    {
      ghost var first := View();
      while queue != []
        invariant Draining(first, View())
        decreases |queue|
      {
        TurnDrains(first, View());
        Turn();
      }
      Drained(first, View());
      worker := Gone;
    }
  }
}
