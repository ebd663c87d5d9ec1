/**
  The worker pool of the fleet refresh: a sender hands enabled tools to workers over
  an unbuffered channel, any party may see the refresh context cancelled, and the
  sender closes the channel and waits for the workers before it returns.

  Jobs are the enabled tools, numbered in configuration order.
 */
module WorkerPool {

  const MAX_CONCURRENT_STATUS_REQUESTS: nat := 32

  datatype Worker = Idle | Holding(job: nat) | Probing(job: nat) | Exited

  /** `Waiting` is after close(jobs); the returned error is nil or the context's. */
  datatype Sender = Sending | Waiting | Returned(isNil: bool)

  /** `probed` lists the jobs in the order their probes started, `lost` those dropped
      by a worker that found the context over. */
  datatype Pool = Pool(jobs: nat, sent: nat, sender: Sender, workers: seq<Worker>, cancelled: bool,
                       probed: seq<nat>, lost: seq<nat>)

  datatype Label =
    | Cancel
    | Send(w: nat)        // rendezvous of the sender with an idle worker
    | Stop                // the sender's <-ctx.Done() branch
    | Finish              // all jobs sent: close(jobs)
    | Check(w: nat)       // the worker looks at ctx.Err()
    | Answer(w: nat)      // GetStatusAdmin returns and the outcome is published
    | Leave(w: nat)       // the channel is closed and drained
    | Return

  function WorkerCount(jobs: nat): nat {
    if jobs < MAX_CONCURRENT_STATUS_REQUESTS then jobs else MAX_CONCURRENT_STATUS_REQUESTS
  }

  /** With no enabled tool collectStatuses returns nil before it makes any worker. */
  function Init(jobs: nat): Pool {
    Pool(jobs, 0, if jobs == 0 then Returned(true) else Sending, seq(WorkerCount(jobs), _ => Idle), false, [], [])
  }

  predicate Enabled(s: Pool, l: Label) {
    match l
    case Cancel => true
    case Send(w) => s.sender == Sending && s.sent < s.jobs && w < |s.workers| && s.workers[w] == Idle
    case Stop => s.sender == Sending && s.sent < s.jobs && s.cancelled
    case Finish => s.sender == Sending && s.sent == s.jobs
    case Check(w) => w < |s.workers| && s.workers[w].Holding?
    case Answer(w) => w < |s.workers| && s.workers[w].Probing?
    case Leave(w) => w < |s.workers| && s.workers[w] == Idle && s.sender != Sending
    case Return => s.sender == Waiting && forall w :: 0 <= w < |s.workers| ==> s.workers[w] == Exited
  }

  function Next(s: Pool, l: Label): Pool
    requires Enabled(s, l)
  {
    match l
    case Cancel => s.(cancelled := true)
    case Send(w) => s.(workers := s.workers[w := Holding(s.sent)], sent := s.sent + 1)
    case Stop => s.(sender := Waiting)
    case Finish => s.(sender := Waiting)
    case Check(w) =>
      var job := s.workers[w].job;
      if s.cancelled then s.(workers := s.workers[w := Exited], lost := s.lost + [job])
      else s.(workers := s.workers[w := Probing(job)], probed := s.probed + [job])
    case Answer(w) => s.(workers := s.workers[w := Idle])
    case Leave(w) => s.(workers := s.workers[w := Exited])
    case Return => s.(sender := Returned(!s.cancelled))
  }

  datatype Run = Run(states: seq<Pool>, labels: seq<Label>)

  ghost predicate IsRun(run: Run, jobs: nat) {
    && |run.states| == |run.labels| + 1
    && run.states[0] == Init(jobs)
    && forall i :: 0 <= i < |run.labels| ==>
         Enabled(run.states[i], run.labels[i]) && run.states[i + 1] == Next(run.states[i], run.labels[i])
  }

  ghost predicate Distinct(xs: seq<nat>) {
    forall i, j :: 0 <= i < j < |xs| ==> xs[i] != xs[j]
  }

  ghost predicate HeldBy(s: Pool, w: nat, k: nat) {
    w < |s.workers| && s.workers[w] == Holding(k)
  }

  /** Conservation of jobs: what was sent is probed, held by exactly one worker, or lost. */
  ghost predicate JobsInv(s: Pool) {
    && Distinct(s.probed) && Distinct(s.lost)
    && (forall k :: k in s.probed ==> k < s.sent && k !in s.lost)
    && (forall k :: k in s.lost ==> k < s.sent)
    && (forall w: nat, k: nat :: HeldBy(s, w, k) ==> k < s.sent && k !in s.probed && k !in s.lost)
    && (forall v: nat, w: nat, k: nat :: HeldBy(s, v, k) && HeldBy(s, w, k) ==> v == w)
    && (forall k: nat :: k < s.sent && k !in s.probed && k !in s.lost ==> exists w: nat :: HeldBy(s, w, k))
  }

  ghost predicate ControlInv(s: Pool, jobs: nat) {
    && s.jobs == jobs && s.sent <= jobs && |s.workers| == WorkerCount(jobs)
    && (s.lost != [] ==> s.cancelled)
    && (s.sender == Sending ==> forall w :: 0 <= w < |s.workers| && s.workers[w] == Exited ==> s.cancelled)
    && (s.sender != Sending && s.sent < jobs ==> s.cancelled)
    && (s.sender.Returned? ==> forall w :: 0 <= w < |s.workers| ==> s.workers[w] == Exited)
    && (s.sender.Returned? && s.sender.isNil ==> s.lost == [] && s.sent == jobs)
  }

  /** How one worker's change of state moves one job. */
  lemma JobsStep(s: Pool, l: Label, jobs: nat)
    requires JobsInv(s) && ControlInv(s, jobs) && Enabled(s, l)
    ensures JobsInv(Next(s, l))
  {
    var t := Next(s, l);
    match l {
      case Send(w) =>
        assert HeldBy(t, w, s.sent);
        assert forall v: nat, k: nat :: v != w ==> (HeldBy(t, v, k) <==> HeldBy(s, v, k));
      case Check(w) =>
        var job := s.workers[w].job;
        assert HeldBy(s, w, job);
        assert forall v: nat, k: nat :: HeldBy(t, v, k) <==> v != w && HeldBy(s, v, k);
      case Answer(w) => assert forall v: nat, k: nat :: HeldBy(t, v, k) <==> HeldBy(s, v, k);
      case Leave(w) => assert forall v: nat, k: nat :: HeldBy(t, v, k) <==> HeldBy(s, v, k);
      case _ => assert forall v: nat, k: nat :: HeldBy(t, v, k) <==> HeldBy(s, v, k);
    }
  }

  lemma ControlStep(s: Pool, l: Label, jobs: nat)
    requires ControlInv(s, jobs) && Enabled(s, l)
    ensures ControlInv(Next(s, l), jobs)
  {
  }

  lemma {:induction false} RunInv(run: Run, jobs: nat, i: nat)
    requires IsRun(run, jobs) && i < |run.states|
    ensures JobsInv(run.states[i]) && ControlInv(run.states[i], jobs)
  {
    if i > 0 {
      RunInv(run, jobs, i - 1);
      JobsStep(run.states[i - 1], run.labels[i - 1], jobs);
      ControlStep(run.states[i - 1], run.labels[i - 1], jobs);
    }
  }

  // ------------------------------------------------------- the main results

  /** How many workers are probing. */
  function Busy(workers: seq<Worker>): (n: nat)
    ensures n <= |workers|
  {
    if workers == [] then 0 else Busy(workers[1..]) + if workers[0].Probing? then 1 else 0
  }

  /** No enabled tool is probed twice, and at most 32 probes are under way at once. */
  lemma ProbedAtMostOnce(run: Run, jobs: nat, i: nat)
    requires IsRun(run, jobs) && i < |run.states|
    ensures Distinct(run.states[i].probed)
    ensures forall k :: k in run.states[i].probed ==> k < jobs
    ensures |run.states[i].workers| == (if jobs < 32 then jobs else 32)
    ensures Busy(run.states[i].workers) <= 32
  {
    RunInv(run, jobs, i);
  }

  /** The pool cannot get stuck: unless the refresh has returned or a probe is waiting for
      its device, some party can move. In particular the sender always can once every
      worker has gone, because workers go early only when the context is over. */
  lemma NeverStuck(run: Run, jobs: nat, i: nat) returns (l: Label)
    requires IsRun(run, jobs) && i < |run.states|
    requires !run.states[i].sender.Returned?
    requires forall w :: 0 <= w < |run.states[i].workers| ==> !run.states[i].workers[w].Probing?
    ensures l != Cancel && !l.Answer? && Enabled(run.states[i], l)
    ensures run.states[i].sender == Sending && (forall w :: 0 <= w < |run.states[i].workers| ==> run.states[i].workers[w] == Exited)
      ==> l == Stop || l == Finish
  {
    RunInv(run, jobs, i);
    var s := run.states[i];
    if s.sender == Sending && s.sent == s.jobs {
      return Finish;
    }
    if w :| 0 <= w < |s.workers| && s.workers[w].Holding? {
      return Check(w);
    }
    if w :| 0 <= w < |s.workers| && s.workers[w].Idle? {
      return if s.sender == Sending then Send(w) else Leave(w);
    }
    assert forall w :: 0 <= w < |s.workers| ==> s.workers[w] == Exited;
    if s.sender == Sending {
      assert s.workers[0] == Exited;
      return Stop;
    }
    return Return;
  }

  /** A nil result means that every enabled tool was probed exactly once. */
  lemma NilMeansAllProbed(run: Run, jobs: nat, i: nat)
    requires IsRun(run, jobs) && i < |run.states| && run.states[i].sender == Returned(true)
    ensures Distinct(run.states[i].probed)
    ensures forall k :: k in run.states[i].probed <==> 0 <= k < jobs
    ensures run.states[i].lost == []
  {
    RunInv(run, jobs, i);
    var s := run.states[i];
    assert forall w: nat, k: nat :: !HeldBy(s, w, k);
  }

  /** A refresh with nothing to probe returns nil at once. Any other returned at some step
      `j`, when every worker had gone, with nil exactly if the context was not over then. */
  lemma {:induction false} ReturnedExactly(run: Run, jobs: nat, i: nat) returns (j: nat)
    requires IsRun(run, jobs) && i < |run.states| && run.states[i].sender.Returned?
    ensures jobs == 0 ==> run.states[i].sender.isNil
    ensures jobs > 0 ==> j < i && run.labels[j] == Return
    ensures jobs > 0 ==> (run.states[i].sender.isNil <==> !run.states[j].cancelled)
    ensures forall w :: 0 <= w < |run.states[i].workers| ==> run.states[i].workers[w] == Exited
  {
    RunInv(run, jobs, i);
    j := 0;
    if jobs == 0 {
      NothingToProbe(run, i);
    } else if run.states[i - 1].sender.Returned? {
      j := ReturnedExactly(run, jobs, i - 1);
    } else {
      j := i - 1;
    }
  }

  lemma {:induction false} NothingToProbe(run: Run, i: nat)
    requires IsRun(run, 0) && i < |run.states|
    ensures run.states[i].sender == Returned(true)
  {
    if i > 0 {
      NothingToProbe(run, i - 1);
    }
  }

  /** Whatever the result, a tool that was not probed was never sent or was dropped, and
      then the context was over. */
  lemma UnprobedMeansCancelled(run: Run, jobs: nat, i: nat, k: nat)
    requires IsRun(run, jobs) && i < |run.states| && run.states[i].sender.Returned?
    requires k < jobs && k !in run.states[i].probed
    ensures run.states[i].cancelled && run.states[i].sender == Returned(false)
  {
    RunInv(run, jobs, i);
    if run.states[i].sender == Returned(true) {
      NilMeansAllProbed(run, jobs, i);
    }
    var s := run.states[i];
    assert forall w: nat :: !HeldBy(s, w, k);
  }
}
