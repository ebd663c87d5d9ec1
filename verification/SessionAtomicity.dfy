/**
  Every authenticated call is atomic. Whatever other requests do, a call of the fine-grained
  system of module SessionSystem leaves the session, sends as often and ends as the loop
  of module AuthLoop does when it runs by itself.
 */
module SessionAtomicity {
  import opened Optional
  import opened AuthLoop
  import opened SessionSystem
  import Slot = RequestSlot

  /** The session the device's pointer leads to. */
  ghost function Core(d: Shared): Option<Session>
    requires Pointed(d)
  {
    if d.session.Some? then Some(d.heap[d.session.value].core) else None
  }

  /** The field of the event that a step at `p` looks at is that of the attempt in `env`. */
  ghost predicate Feeds(p: Rpc, e: Event, env: seq<Attempt>) {
    match p
    case Top(l) => l.attempt < |env| ==> e.now == env[l.attempt].now
    case Choosing(l) => l.attempt < |env| ==> e.uriOk == env[l.attempt].uriOk
    case Sending(l, _) => l.attempt < |env| ==> e.answer == env[l.attempt].answer
    case Renewing(l) => 0 < l.attempt <= |env| ==> e.created == env[l.attempt - 1].created
    case Pausing(l) => 0 < l.attempt <= |env| ==> e.waitOk == env[l.attempt - 1].waitOk
    case _ => true
  }

  /** What the owner of the slot knows inside the loop. */
  ghost predicate Knows(d: Shared, p: Rpc, env: seq<Attempt>)
    requires |env| == MAX_AUTHENTICATION_ATTEMPTS
  {
    && Pointed(d)
    && match p
       case Plain => false
       case Top(l) => l.attempt <= |env|
       case Choosing(l) => l.attempt < |env| && Fit(Core(d), env[l.attempt])
       case Checking(l, sid) => l.attempt < |env| && d.session == Some(sid) && Fit(Core(d), env[l.attempt]) && env[l.attempt].uriOk
       case Loading(l, sid) => l.attempt < |env| && d.session == Some(sid) && Fit(Core(d), env[l.attempt]) && env[l.attempt].uriOk
       case Storing(l, sid, count) =>
         l.attempt < |env| && d.session == Some(sid) && Fit(Core(d), env[l.attempt]) && env[l.attempt].uriOk
         && count == d.heap[sid].core.nonceCount
       case Naming(l, sid) => l.attempt < |env| && d.session == Some(sid)
       case Exhausted(_) => false
       case Sending(l, authenticated) => l.attempt < |env| && authenticated == d.session.Some?
       case Renewing(l) => 0 < l.attempt <= |env|
       case Pausing(l) => 0 < l.attempt <= |env|
       case Finished(_) => true
  }

  /** What the loop, left alone, still does from `p`. */
  ghost function Rest(d: Shared, p: Rpc, env: seq<Attempt>): Outcome
    requires |env| == MAX_AUTHENTICATION_ATTEMPTS && Knows(d, p, env)
  {
    match p
    case Top(l) => AuthRun(l, Core(d), env)
    case Choosing(l) => AuthRun(l, Core(d), env)
    case Checking(l, _) => AuthRun(l, Core(d), env)
    case Loading(l, _) => AuthRun(l, Core(d), env)
    case Storing(l, _, _) => AuthRun(l, Core(d), env)
    case Naming(l, _) => AfterSend(l, true, Core(d), env)
    case Sending(l, authenticated) => AfterSend(l, authenticated, Core(d), env)
    case Renewing(l) => AuthRun(l, Some(Session(0, env[l.attempt - 1].created)), env)
    case Pausing(l) => if env[l.attempt - 1].waitOk then AuthRun(l, Core(d), env) else Outcome(0, Core(d), Failed)
    case Finished(end) => Outcome(0, Core(d), end)
  }

  /** Same session left, same ending, and the sends of `b` after `sent` others. */
  ghost predicate Same(a: Outcome, b: Outcome, sent: nat) {
    a.sends == b.sends + sent && a.session == b.session && a.end == b.end
  }

  function Sends(p: Rpc): nat { if p.Sending? then 1 else 0 }

  /** A move leaves the rest of the call as it was. */
  ghost predicate Refines(d: Shared, p: Rpc, d': Shared, p': Rpc, env: seq<Attempt>)
    requires |env| == MAX_AUTHENTICATION_ATTEMPTS && Knows(d, p, env)
  {
    Knows(d', p', env) && Same(Rest(d, p, env), Rest(d', p', env), Sends(p))
  }

  lemma TopRefines(d: Shared, p: Rpc, e: Event, env: seq<Attempt>)
    requires |env| == MAX_AUTHENTICATION_ATTEMPTS && Knows(d, p, env) && CanMove(d, p) && Feeds(p, e, env)
    requires p.Top?
    ensures Refines(d, p, Moved(d, p, e).0, Moved(d, p, e).1, env)
  {
  }

  lemma ChoosingRefines(d: Shared, p: Rpc, e: Event, env: seq<Attempt>)
    requires |env| == MAX_AUTHENTICATION_ATTEMPTS && Knows(d, p, env) && CanMove(d, p) && Feeds(p, e, env)
    requires p.Choosing?
    ensures Refines(d, p, Moved(d, p, e).0, Moved(d, p, e).1, env)
  {
    if d.session == None {
      FitRuns(p.l, None, env);
    }
  }

  lemma LookingRefines(d: Shared, p: Rpc, e: Event, env: seq<Attempt>)
    requires |env| == MAX_AUTHENTICATION_ATTEMPTS && Knows(d, p, env) && CanMove(d, p) && Feeds(p, e, env)
    requires p.Checking? || p.Loading?
    ensures Refines(d, p, Moved(d, p, e).0, Moved(d, p, e).1, env)
  {
  }

  lemma StoringRefines(d: Shared, p: Rpc, e: Event, env: seq<Attempt>)
    requires |env| == MAX_AUTHENTICATION_ATTEMPTS && Knows(d, p, env) && CanMove(d, p) && Feeds(p, e, env)
    requires p.Storing?
    ensures Refines(d, p, Moved(d, p, e).0, Moved(d, p, e).1, env)
  {
    FitRuns(p.l, Core(d), env);
    assert Core(Moved(d, p, e).0) == Used(Core(d));
  }

  lemma NamingRefines(d: Shared, p: Rpc, e: Event, env: seq<Attempt>)
    requires |env| == MAX_AUTHENTICATION_ATTEMPTS && Knows(d, p, env) && CanMove(d, p) && Feeds(p, e, env)
    requires p.Naming?
    ensures Refines(d, p, Moved(d, p, e).0, Moved(d, p, e).1, env)
  {
  }

  lemma SendingRefines(d: Shared, p: Rpc, e: Event, env: seq<Attempt>)
    requires |env| == MAX_AUTHENTICATION_ATTEMPTS && Knows(d, p, env) && CanMove(d, p) && Feeds(p, e, env)
    requires p.Sending?
    ensures Refines(d, p, Moved(d, p, e).0, Moved(d, p, e).1, env)
  {
  }

  lemma EndingRefines(d: Shared, p: Rpc, e: Event, env: seq<Attempt>)
    requires |env| == MAX_AUTHENTICATION_ATTEMPTS && Knows(d, p, env) && CanMove(d, p) && Feeds(p, e, env)
    requires p.Renewing? || p.Pausing?
    ensures Refines(d, p, Moved(d, p, e).0, Moved(d, p, e).1, env)
  {
  }

  /** One read or write of the loop leaves the rest of the call as it was. */
  lemma MoveRefines(d: Shared, p: Rpc, e: Event, env: seq<Attempt>)
    requires |env| == MAX_AUTHENTICATION_ATTEMPTS && Knows(d, p, env) && CanMove(d, p) && Feeds(p, e, env)
    ensures Refines(d, p, Moved(d, p, e).0, Moved(d, p, e).1, env)
  {
    match p {
      case Top(_) => TopRefines(d, p, e, env);
      case Choosing(_) => ChoosingRefines(d, p, e, env);
      case Checking(_, _) => LookingRefines(d, p, e, env);
      case Loading(_, _) => LookingRefines(d, p, e, env);
      case Storing(_, _, _) => StoringRefines(d, p, e, env);
      case Naming(_, _) => NamingRefines(d, p, e, env);
      case Sending(_, _) => SendingRefines(d, p, e, env);
      case Renewing(_) => EndingRefines(d, p, e, env);
      case Pausing(_) => EndingRefines(d, p, e, env);
    }
  }

  /** How many requests `r` makes in one step of the system. */
  ghost function StepSends(s: System, l: Label, r: ReqId): nat {
    if l.RpcStep? && l.r == r && r in s.rpc then Sends(s.rpc[r]) else 0
  }

  /** How many requests `r` makes between two states of a run. */
  ghost function SendsOf(run: Run, r: ReqId, i: nat, j: nat): nat
    requires i <= j <= |run.labels| && j < |run.states|
    decreases j - i
  {
    if i == j then 0
    else SendsOf(run, r, i, j - 1) + StepSends(run.states[j - 1], run.labels[j - 1], r)
  }

  /** From state `i` to state `j` request `r` is in its call, and its steps meet `env`. */
  ghost predicate InCall(run: Run, r: ReqId, i: nat, j: nat, env: seq<Attempt>)
    requires IsRun(run) && i <= j < |run.states|
  {
    && (forall k :: i <= k <= j ==> InLoop(run.states[k], r))
    && (forall k :: i <= k < j && run.labels[k].RpcStep? && run.labels[k].r == r ==>
          r in run.states[k].rpc && Feeds(run.states[k].rpc[r], run.labels[k].e, env))
  }

  /** While `r` is in its call nobody else moves the session or the position of `r`. */
  lemma OthersAway(s: System, l: Label, r: ReqId)
    requires Inv(s) && Enabled(s, l) && InLoop(s, r) && (l.RpcStep? ==> l.r != r)
    ensures Next(s, l).shared == s.shared
    ensures r in s.rpc && r in Next(s, l).rpc && Next(s, l).rpc[r] == s.rpc[r]
  {
    assert Slot.At(s.slot, r, Slot.Calling);
    if l.RpcStep? {
      SoleCaller(s.slot, r, l.r);
    }
  }

  /** `first` is what a call that began some time ago was going to do, `sent` what it did. */
  ghost predicate OnCourse(s: System, r: ReqId, env: seq<Attempt>, first: Outcome, sent: nat)
    requires |env| == MAX_AUTHENTICATION_ATTEMPTS
  {
    r in s.rpc && Knows(s.shared, s.rpc[r], env) && Same(first, Rest(s.shared, s.rpc[r], env), sent)
  }

  lemma StepOnCourse(s: System, l: Label, r: ReqId, env: seq<Attempt>, first: Outcome, sent: nat)
    requires |env| == MAX_AUTHENTICATION_ATTEMPTS && Inv(s) && Enabled(s, l) && InLoop(s, r)
    requires OnCourse(s, r, env, first, sent)
    requires l.RpcStep? && l.r == r ==> Feeds(s.rpc[r], l.e, env)
    ensures OnCourse(Next(s, l), r, env, first, sent + StepSends(s, l, r))
  {
    if l.RpcStep? && l.r == r {
      MoveRefines(s.shared, s.rpc[r], l.e, env);
    } else {
      OthersAway(s, l, r);
    }
  }

  lemma StartOnCourse(s: System, r: ReqId, env: seq<Attempt>)
    requires |env| == MAX_AUTHENTICATION_ATTEMPTS && Inv(s) && InLoop(s, r) && r in s.rpc && s.rpc[r] == Top(Start)
    ensures Pointed(s.shared) && OnCourse(s, r, env, AuthRun(Start, Core(s.shared), env), 0)
  {
    assert Slot.At(s.slot, r, Slot.Calling);
  }

  lemma {:induction false} CallOnCourse(run: Run, r: ReqId, i: nat, j: nat, env: seq<Attempt>, first: Outcome)
    requires IsRun(run) && i <= j < |run.states| && |env| == MAX_AUTHENTICATION_ATTEMPTS
    requires InCall(run, r, i, j, env)
    requires OnCourse(run.states[i], r, env, first, 0)
    ensures OnCourse(run.states[j], r, env, first, SendsOf(run, r, i, j))
    decreases j - i
  {
    if i < j {
      CallOnCourse(run, r, i, j - 1, env, first);
      RunInv(run, j - 1);
      assert InLoop(run.states[j - 1], r);
      StepOnCourse(run.states[j - 1], run.labels[j - 1], r, env, first, SendsOf(run, r, i, j - 1));
    }
  }

  lemma CallFromStart(run: Run, r: ReqId, i: nat, j: nat, env: seq<Attempt>)
    requires IsRun(run) && i <= j < |run.states| && |env| == MAX_AUTHENTICATION_ATTEMPTS
    requires InCall(run, r, i, j, env)
    requires r in run.states[i].rpc && run.states[i].rpc[r] == Top(Start)
    ensures Pointed(run.states[i].shared)
    ensures OnCourse(run.states[j], r, env, AuthRun(Start, Core(run.states[i].shared), env), SendsOf(run, r, i, j))
  {
    RunInv(run, i);
    StartOnCourse(run.states[i], r, env);
    CallOnCourse(run, r, i, j, env, AuthRun(Start, Core(run.states[i].shared), env));
  }

  /** In every run of every number of requests, a finished authenticated call has left the
      session, sent as many requests and ended as the loop running alone would have, on the
      session it found and the answers it met. */
  lemma CallsAreAtomic(run: Run, r: ReqId, i: nat, j: nat, env: seq<Attempt>)
    requires IsRun(run) && i <= j < |run.states| && |env| == MAX_AUTHENTICATION_ATTEMPTS
    requires InCall(run, r, i, j, env)
    requires r in run.states[i].rpc && run.states[i].rpc[r] == Top(Start)
    requires r in run.states[j].rpc && run.states[j].rpc[r].Finished?
    ensures Pointed(run.states[i].shared) && Pointed(run.states[j].shared)
    ensures var o := AuthRun(Start, Core(run.states[i].shared), env);
      && Core(run.states[j].shared) == o.session
      && SendsOf(run, r, i, j) == o.sends
      && run.states[j].rpc[r].end == o.end
  {
    CallFromStart(run, r, i, j, env);
  }

  // ------------------------------------------- what a call meets, from its run

  /** Where in the loop a position lies: which attempt, and how far into it. */
  function Rank(p: Rpc): int {
    match p
    case Plain => 0
    case Top(l) => 8 * l.attempt
    case Choosing(l) => 8 * l.attempt + 1
    case Checking(l, _) => 8 * l.attempt + 2
    case Loading(l, _) => 8 * l.attempt + 3
    case Storing(l, _, _) => 8 * l.attempt + 4
    case Naming(l, _) => 8 * l.attempt + 5
    case Exhausted(l) => 8 * l.attempt + 6
    case Sending(l, _) => 8 * l.attempt + 6
    case Renewing(l) => 8 * l.attempt - 1
    case Pausing(l) => 8 * l.attempt - 1
    case Finished(_) => 8 * MAX_AUTHENTICATION_ATTEMPTS + 1
  }

  predicate Placed(p: Rpc) {
    match p
    case Top(l) => l.attempt <= MAX_AUTHENTICATION_ATTEMPTS
    case Choosing(l) => l.attempt < MAX_AUTHENTICATION_ATTEMPTS
    case Checking(l, _) => l.attempt < MAX_AUTHENTICATION_ATTEMPTS
    case Loading(l, _) => l.attempt < MAX_AUTHENTICATION_ATTEMPTS
    case Storing(l, _, _) => l.attempt < MAX_AUTHENTICATION_ATTEMPTS
    case Naming(l, _) => l.attempt < MAX_AUTHENTICATION_ATTEMPTS
    case Exhausted(l) => l.attempt < MAX_AUTHENTICATION_ATTEMPTS
    case Sending(l, _) => l.attempt < MAX_AUTHENTICATION_ATTEMPTS
    case Renewing(l) => 0 < l.attempt <= MAX_AUTHENTICATION_ATTEMPTS
    case Pausing(l) => 0 < l.attempt <= MAX_AUTHENTICATION_ATTEMPTS
    case _ => true
  }

  /** A call only moves forward. */
  lemma MoveRanks(d: Shared, p: Rpc, e: Event)
    requires CanMove(d, p) && Placed(p)
    ensures Placed(Moved(d, p, e).1) && Rank(p) < Rank(Moved(d, p, e).1)
  {
  }

  /** The clock reading a step makes. */
  function Reading(p: Rpc, e: Event): Option<int> {
    match p
    case Top(l) => if l.attempt < MAX_AUTHENTICATION_ATTEMPTS then Some(e.now) else None
    case Renewing(_) => Some(e.created)
    case _ => None
  }

  /** From attempt `n` on the clock is taken to stand at `t`. */
  function Standing(env: seq<Attempt>, n: nat, t: int): (r: seq<Attempt>)
    ensures |r| == |env|
  {
    seq(|env|, k requires 0 <= k < |env| => if k < n then env[k] else env[k].(now := t, created := t))
  }

  /** Writes what a step has met into the attempt it belongs to. */
  function Fed(env: seq<Attempt>, p: Rpc, e: Event): (r: seq<Attempt>)
    requires |env| == MAX_AUTHENTICATION_ATTEMPTS && Placed(p)
    ensures |r| == |env|
  {
    match p
    case Top(l) => if l.attempt < |env| then Standing(env, l.attempt, e.now) else env
    case Choosing(l) => env[l.attempt := env[l.attempt].(uriOk := e.uriOk)]
    case Sending(l, _) => env[l.attempt := env[l.attempt].(answer := e.answer)]
    case Renewing(l) => Standing(env, l.attempt, e.created)[l.attempt - 1 := env[l.attempt - 1].(created := e.created)]
    case Pausing(l) => env[l.attempt - 1 := env[l.attempt - 1].(waitOk := e.waitOk)]
    case _ => env
  }

  lemma FedFeeds(env: seq<Attempt>, p: Rpc, e: Event)
    requires |env| == MAX_AUTHENTICATION_ATTEMPTS && Placed(p)
    ensures Feeds(p, e, Fed(env, p, e))
  {
  }

  /** Feeding a later step leaves the earlier ones fed: each field is read once. */
  lemma FedKeeps(env: seq<Attempt>, p: Rpc, e: Event, p': Rpc, e': Event)
    requires |env| == MAX_AUTHENTICATION_ATTEMPTS && Placed(p) && Placed(p') && Rank(p') < Rank(p)
    requires Feeds(p', e', env)
    ensures Feeds(p', e', Fed(env, p, e))
  {
  }

  predicate OwnStep(l: Label, r: ReqId) { l.RpcStep? && l.r == r }

  /** From state `i` to state `j` request `r` is in the one call that it began at `i`. */
  ghost predicate IsCall(run: Run, r: ReqId, i: nat, j: nat)
    requires IsRun(run) && i <= j < |run.states|
  {
    && (forall k :: i <= k <= j ==> InLoop(run.states[k], r))
    && r in run.states[i].rpc && run.states[i].rpc[r] == Top(Start)
  }

  /** Where the call is at state `j`. */
  ghost function PositionAt(run: Run, r: ReqId, j: nat): Rpc
    requires j < |run.states|
  {
    if r in run.states[j].rpc then run.states[j].rpc[r] else Plain
  }

  /** What one step of the system is to the call of `r`: its own move, or nothing. */
  ghost predicate CallStep(run: Run, r: ReqId, k: nat)
    requires k < |run.labels| && k + 1 < |run.states|
  {
    var p, p' := PositionAt(run, r, k), PositionAt(run, r, k + 1);
    && Placed(p) && Placed(p')
    && if OwnStep(run.labels[k], r)
       then CanMove(run.states[k].shared, p) && p' == Moved(run.states[k].shared, p, run.labels[k].e).1
       else p' == p
  }

  lemma StepOfCall(run: Run, r: ReqId, k: nat)
    requires IsRun(run) && k < |run.labels| && InLoop(run.states[k], r) && Placed(PositionAt(run, r, k))
    ensures CallStep(run, r, k) && Placed(PositionAt(run, r, k + 1))
  {
    RunInv(run, k);
    var s, l := run.states[k], run.labels[k];
    assert Slot.At(s.slot, r, Slot.Calling);
    if OwnStep(l, r) {
      MoveRanks(s.shared, s.rpc[r], l.e);
    } else {
      OthersAway(s, l, r);
    }
  }

  /** The steps of the system between two states as the call of `r` sees them. */
  ghost predicate Path(run: Run, r: ReqId, i: nat, j: nat) {
    && i <= j <= |run.labels| && j < |run.states|
    && Placed(PositionAt(run, r, i))
    && forall k :: i <= k < j ==> CallStep(run, r, k)
  }

  lemma CallPrefix(run: Run, r: ReqId, i: nat, j: nat)
    requires IsRun(run) && i < j < |run.states| && IsCall(run, r, i, j)
    ensures IsCall(run, r, i, j - 1) && InLoop(run.states[j - 1], r)
  {
  }

  lemma PathSnoc(run: Run, r: ReqId, i: nat, j: nat)
    requires i < j <= |run.labels| && j < |run.states| && Path(run, r, i, j - 1) && CallStep(run, r, j - 1)
    ensures Path(run, r, i, j)
  {
  }

  lemma {:induction false} CallPath(run: Run, r: ReqId, i: nat, j: nat)
    requires IsRun(run) && i <= j < |run.states| && IsCall(run, r, i, j)
    ensures Path(run, r, i, j) && Placed(PositionAt(run, r, j))
    decreases j - i
  {
    if i < j {
      CallPrefix(run, r, i, j);
      CallPath(run, r, i, j - 1);
      StepOfCall(run, r, j - 1);
      PathSnoc(run, r, i, j);
    }
  }

  lemma PathPrefix(run: Run, r: ReqId, i: nat, j: nat)
    requires Path(run, r, i, j) && i < j
    ensures Path(run, r, i, j - 1) && CallStep(run, r, j - 1)
  {
  }

  /** The call's own steps before state `j` were taken below a rank. */
  ghost predicate Below(run: Run, r: ReqId, i: nat, j: nat, rank: int)
    requires j <= |run.labels| && j < |run.states|
  {
    forall k :: i <= k < j && OwnStep(run.labels[k], r) ==> Placed(PositionAt(run, r, k)) && Rank(PositionAt(run, r, k)) < rank
  }

  lemma BelowHigher(run: Run, r: ReqId, i: nat, j: nat)
    requires 0 < j <= |run.labels| && j < |run.states| && CallStep(run, r, j - 1)
    requires Below(run, r, i, j - 1, Rank(PositionAt(run, r, j - 1)))
    ensures Below(run, r, i, j, Rank(PositionAt(run, r, j)))
  {
    if OwnStep(run.labels[j - 1], r) {
      MoveRanks(run.states[j - 1].shared, PositionAt(run, r, j - 1), run.labels[j - 1].e);
    }
  }

  lemma {:induction false} RankGrows(run: Run, r: ReqId, i: nat, j: nat)
    requires Path(run, r, i, j)
    ensures Below(run, r, i, j, Rank(PositionAt(run, r, j)))
    decreases j - i
  {
    if i < j {
      PathPrefix(run, r, i, j);
      RankGrows(run, r, i, j - 1);
      BelowHigher(run, r, i, j);
    }
  }

  /** What the call has met by state `j`, given what it had met before. */
  ghost function Meeting(run: Run, r: ReqId, j: nat, env: seq<Attempt>): (next: seq<Attempt>)
    requires 0 < j <= |run.labels| && j < |run.states| && |env| == MAX_AUTHENTICATION_ATTEMPTS
    ensures |next| == MAX_AUTHENTICATION_ATTEMPTS
  {
    var p := PositionAt(run, r, j - 1);
    if OwnStep(run.labels[j - 1], r) && Placed(p) then Fed(env, p, run.labels[j - 1].e) else env
  }

  /** What the call has met between two states, put together from the labels of the run;
      attempts not reached yet get the last clock reading. */
  ghost function EnvOf(run: Run, r: ReqId, i: nat, j: nat, begin: int): (env: seq<Attempt>)
    requires i <= j <= |run.labels| && j < |run.states|
    ensures |env| == MAX_AUTHENTICATION_ATTEMPTS
    decreases j - i
  {
    if i == j then seq(MAX_AUTHENTICATION_ATTEMPTS, _ => Attempt(begin, true, SendFailed, begin, true))
    else Meeting(run, r, j, EnvOf(run, r, i, j - 1, begin))
  }

  /** The call's own steps before `j` meet `env`. */
  ghost predicate Met(run: Run, r: ReqId, i: nat, j: nat, env: seq<Attempt>)
    requires j <= |run.labels| && j < |run.states|
  {
    forall k :: i <= k < j && OwnStep(run.labels[k], r) ==> Feeds(PositionAt(run, r, k), run.labels[k].e, env)
  }

  lemma MetOneMore(run: Run, r: ReqId, i: nat, j: nat, env: seq<Attempt>)
    requires i < j <= |run.labels| && j < |run.states| && |env| == MAX_AUTHENTICATION_ATTEMPTS
    requires Placed(PositionAt(run, r, j - 1)) && Below(run, r, i, j - 1, Rank(PositionAt(run, r, j - 1)))
    requires Met(run, r, i, j - 1, env)
    ensures Met(run, r, i, j, Meeting(run, r, j, env))
  {
    var p, l := PositionAt(run, r, j - 1), run.labels[j - 1];
    if OwnStep(l, r) {
      FedFeeds(env, p, l.e);
      forall k | i <= k < j - 1 && OwnStep(run.labels[k], r)
        ensures Feeds(PositionAt(run, r, k), run.labels[k].e, Fed(env, p, l.e))
      {
        FedKeeps(env, p, l.e, PositionAt(run, r, k), run.labels[k].e);
      }
    }
  }

  lemma {:induction false} EnvMet(run: Run, r: ReqId, i: nat, j: nat, begin: int)
    requires Path(run, r, i, j)
    ensures Met(run, r, i, j, EnvOf(run, r, i, j, begin))
    decreases j - i
  {
    if i < j {
      PathPrefix(run, r, i, j);
      EnvMet(run, r, i, j - 1, begin);
      RankGrows(run, r, i, j - 1);
      MetOneMore(run, r, i, j, EnvOf(run, r, i, j - 1, begin));
    }
  }

  lemma MetInCall(run: Run, r: ReqId, i: nat, j: nat, env: seq<Attempt>)
    requires IsRun(run) && i <= j < |run.states| && IsCall(run, r, i, j) && Met(run, r, i, j, env)
    ensures InCall(run, r, i, j, env)
  {
    forall k | i <= k < j && OwnStep(run.labels[k], r)
      ensures r in run.states[k].rpc && Feeds(run.states[k].rpc[r], run.labels[k].e, env)
    {
      assert Enabled(run.states[k], run.labels[k]);
    }
  }

  /** Every call of every run meets some environment: the one its own labels spell out. */
  lemma EnvFeeds(run: Run, r: ReqId, i: nat, j: nat, begin: int)
    requires IsRun(run) && i <= j < |run.states| && IsCall(run, r, i, j)
    ensures InCall(run, r, i, j, EnvOf(run, r, i, j, begin))
  {
    CallPath(run, r, i, j);
    EnvMet(run, r, i, j, begin);
    MetInCall(run, r, i, j, EnvOf(run, r, i, j, begin));
  }

  /** Every finished call of every run has left the session, sent as many requests and ended
      as the loop running alone would have on what its own labels say it met. */
  lemma EveryCallIsAtomic(run: Run, r: ReqId, i: nat, j: nat, begin: int)
    requires IsRun(run) && i <= j < |run.states| && IsCall(run, r, i, j)
    requires r in run.states[j].rpc && run.states[j].rpc[r].Finished?
    ensures Pointed(run.states[i].shared) && Pointed(run.states[j].shared)
    ensures var o := AuthRun(Start, Core(run.states[i].shared), EnvOf(run, r, i, j, begin));
      && Core(run.states[j].shared) == o.session
      && SendsOf(run, r, i, j) == o.sends
      && run.states[j].rpc[r].end == o.end
  {
    EnvFeeds(run, r, i, j, begin);
    CallsAreAtomic(run, r, i, j, EnvOf(run, r, i, j, begin));
  }

  /** Every finished call of every run has ended with the first of its attempts that answers or
      fails it, by its own labels and the session it found. */
  lemma EveryCallEndsRight(run: Run, r: ReqId, i: nat, j: nat, begin: int)
    requires IsRun(run) && i <= j < |run.states| && IsCall(run, r, i, j)
    requires r in run.states[j].rpc && run.states[j].rpc[r].Finished?
    ensures Pointed(run.states[i].shared) && Pointed(run.states[j].shared)
    ensures EndsRight(Core(run.states[i].shared), EnvOf(run, r, i, j, begin), 0,
                      Outcome(SendsOf(run, r, i, j), Core(run.states[j].shared), run.states[j].rpc[r].end))
  {
    EveryCallIsAtomic(run, r, i, j, begin);
    CallExactly(Core(run.states[i].shared), EnvOf(run, r, i, j, begin));
  }

  // ----------------------------------------------------------- the clock of a call

  /** The clock reading that `r` makes in step `k`. */
  ghost function ReadingAt(run: Run, r: ReqId, k: nat): Option<int>
    requires k < |run.labels| && k < |run.states|
  {
    if OwnStep(run.labels[k], r) then Reading(PositionAt(run, r, k), run.labels[k].e) else None
  }

  /** The call's clock readings never run backwards and lie in a window of `span` seconds. */
  ghost predicate InWindow(run: Run, r: ReqId, i: nat, j: nat, begin: int, span: nat)
    requires i <= j <= |run.labels| && j < |run.states|
  {
    && (forall k :: i <= k < j && ReadingAt(run, r, k).Some? ==> begin <= ReadingAt(run, r, k).value <= begin + span)
    && (forall k, m :: i <= k < m < j && ReadingAt(run, r, k).Some? && ReadingAt(run, r, m).Some? ==>
          ReadingAt(run, r, k).value <= ReadingAt(run, r, m).value)
  }

  ghost function LastReading(run: Run, r: ReqId, i: nat, j: nat, begin: int): int
    requires i <= j <= |run.labels| && j < |run.states|
    decreases j - i
  {
    if i == j then begin
    else if ReadingAt(run, r, j - 1).Some? then ReadingAt(run, r, j - 1).value
    else LastReading(run, r, i, j - 1, begin)
  }

  lemma {:induction false} LastIsReading(run: Run, r: ReqId, i: nat, j: nat, begin: int)
    requires i <= j <= |run.labels| && j < |run.states|
    ensures LastReading(run, r, i, j, begin) == begin ||
      exists k :: i <= k < j && ReadingAt(run, r, k) == Some(LastReading(run, r, i, j, begin))
    decreases j - i
  {
    if i < j && ReadingAt(run, r, j - 1) == None {
      LastIsReading(run, r, i, j - 1, begin);
    }
  }

  /** Attempts not reached yet stand at the last reading. */
  ghost predicate Ahead(env: seq<Attempt>, p: Rpc, last: int)
    requires |env| == MAX_AUTHENTICATION_ATTEMPTS
  {
    match p
    case Finished(_) => true
    case Plain => true
    case Top(l) => StandsFrom(env, l.attempt, last)
    case Renewing(l) => 0 < l.attempt <= |env| && env[l.attempt - 1].created == last && StandsFrom(env, l.attempt, last)
    case Pausing(l) => 0 < l.attempt <= |env| && env[l.attempt - 1].created == last && StandsFrom(env, l.attempt, last)
    case _ => p.l.attempt < |env| && env[p.l.attempt].created == last && StandsFrom(env, p.l.attempt + 1, last)
  }

  ghost predicate StandsFrom(env: seq<Attempt>, n: nat, last: int) {
    forall k :: n <= k < |env| ==> env[k].now == env[k].created == last
  }

  function NewLast(p: Rpc, e: Event, last: int): int {
    if Reading(p, e).Some? then Reading(p, e).value else last
  }

  lemma StandingInSpan(env: seq<Attempt>, n: nat, t: int, begin: int, span: nat)
    requires WithinSpan(env, begin, span) && begin <= t <= begin + span
    requires forall k :: 0 <= k < n && k < |env| ==> env[k].created <= t
    ensures WithinSpan(Standing(env, n, t), begin, span) && StandsFrom(Standing(env, n, t), n, t)
  {
  }

  lemma EarlierCreated(env: seq<Attempt>, n: nat, last: int, begin: int, span: nat)
    requires WithinSpan(env, begin, span) && n < |env| && env[n].created == last
    ensures forall k :: 0 <= k <= n ==> env[k].created <= last
  {
  }

  lemma TopInTime(env: seq<Attempt>, l: Local, e: Event, last: int, begin: int, span: nat)
    requires WithinSpan(env, begin, span) && l.attempt < |env| && Ahead(env, Top(l), last) && last <= e.now <= begin + span
    ensures WithinSpan(Fed(env, Top(l), e), begin, span) && StandsFrom(Fed(env, Top(l), e), l.attempt, e.now)
  {
    EarlierCreated(env, l.attempt, last, begin, span);
    StandingInSpan(env, l.attempt, e.now, begin, span);
  }

  lemma RenewInTime(env: seq<Attempt>, l: Local, e: Event, last: int, begin: int, span: nat)
    requires WithinSpan(env, begin, span) && 0 < l.attempt <= |env| && Ahead(env, Renewing(l), last)
    requires last <= e.created <= begin + span
    ensures WithinSpan(Fed(env, Renewing(l), e), begin, span) && StandsFrom(Fed(env, Renewing(l), e), l.attempt, e.created)
  {
    EarlierCreated(env, l.attempt - 1, last, begin, span);
    StandingInSpan(env, l.attempt, e.created, begin, span);
  }

  /** Steps that read no clock change no clock reading. */
  ghost predicate SameClock(env: seq<Attempt>, env': seq<Attempt>) {
    |env| == |env'| && forall k :: 0 <= k < |env| ==> env[k].now == env'[k].now && env[k].created == env'[k].created
  }

  lemma FedSameClock(env: seq<Attempt>, p: Rpc, e: Event)
    requires |env| == MAX_AUTHENTICATION_ATTEMPTS && Placed(p) && Reading(p, e) == None
    ensures SameClock(env, Fed(env, p, e))
  {
  }

  lemma SameClockInSpan(env: seq<Attempt>, env': seq<Attempt>, begin: int, span: nat)
    requires SameClock(env, env') && WithinSpan(env, begin, span)
    ensures WithinSpan(env', begin, span)
  {
  }

  lemma SameClockAhead(env: seq<Attempt>, env': seq<Attempt>, p: Rpc, last: int)
    requires SameClock(env, env') && |env| == MAX_AUTHENTICATION_ATTEMPTS && Ahead(env, p, last)
    ensures Ahead(env', p, last)
  {
  }

  /** A position that is behind another stays behind it. */
  lemma AheadMoves(d: Shared, p: Rpc, e: Event, env: seq<Attempt>, last: int)
    requires |env| == MAX_AUTHENTICATION_ATTEMPTS && CanMove(d, p) && Placed(p) && Reading(p, e) == None
    requires Ahead(env, p, last)
    ensures Ahead(env, Moved(d, p, e).1, last)
  {
  }

  lemma ClockMoves(d: Shared, p: Rpc, e: Event, env: seq<Attempt>, t: int)
    requires |env| == MAX_AUTHENTICATION_ATTEMPTS && CanMove(d, p) && Placed(p) && Reading(p, e) == Some(t)
    requires p.l.attempt <= |env| && StandsFrom(env, p.l.attempt, t)
    ensures Ahead(env, Moved(d, p, e).1, t)
  {
  }

  lemma FedInTime(d: Shared, p: Rpc, e: Event, env: seq<Attempt>, last: int, begin: int, span: nat)
    requires |env| == MAX_AUTHENTICATION_ATTEMPTS && CanMove(d, p) && Placed(p)
    requires WithinSpan(env, begin, span) && Ahead(env, p, last)
    requires Reading(p, e).Some? ==> last <= Reading(p, e).value <= begin + span
    ensures WithinSpan(Fed(env, p, e), begin, span) && Ahead(Fed(env, p, e), Moved(d, p, e).1, NewLast(p, e, last))
  {
    var fed := Fed(env, p, e);
    if Reading(p, e) == None {
      FedSameClock(env, p, e);
      SameClockInSpan(env, fed, begin, span);
      AheadMoves(d, p, e, env, last);
      SameClockAhead(env, fed, Moved(d, p, e).1, last);
    } else {
      if p.Top? {
        TopInTime(env, p.l, e, last, begin, span);
      } else {
        RenewInTime(env, p.l, e, last, begin, span);
      }
      ClockMoves(d, p, e, fed, Reading(p, e).value);
    }
  }

  lemma ReadingInTime(run: Run, r: ReqId, i: nat, j: nat, begin: int, span: nat)
    requires i < j <= |run.labels| && j < |run.states| && InWindow(run, r, i, j, begin, span) && ReadingAt(run, r, j - 1).Some?
    ensures LastReading(run, r, i, j - 1, begin) <= ReadingAt(run, r, j - 1).value <= begin + span
  {
    LastIsReading(run, r, i, j - 1, begin);
  }

  /** `env` is within the window, and what is still ahead of the call stands at `last`. */
  ghost predicate InTime(env: seq<Attempt>, p: Rpc, last: int, begin: int, span: nat) {
    |env| == MAX_AUTHENTICATION_ATTEMPTS && WithinSpan(env, begin, span) && Ahead(env, p, last)
  }

  lemma StepInTime(run: Run, r: ReqId, i: nat, j: nat, begin: int, span: nat, env: seq<Attempt>)
    requires i < j <= |run.labels| && j < |run.states| && CallStep(run, r, j - 1) && InWindow(run, r, i, j, begin, span)
    requires InTime(env, PositionAt(run, r, j - 1), LastReading(run, r, i, j - 1, begin), begin, span)
    ensures InTime(Meeting(run, r, j, env), PositionAt(run, r, j), LastReading(run, r, i, j, begin), begin, span)
  {
    var p, l, last := PositionAt(run, r, j - 1), run.labels[j - 1], LastReading(run, r, i, j - 1, begin);
    if OwnStep(l, r) {
      if ReadingAt(run, r, j - 1).Some? {
        ReadingInTime(run, r, i, j, begin, span);
      }
      FedInTime(run.states[j - 1].shared, p, l.e, env, last, begin, span);
    }
  }

  lemma WindowPrefix(run: Run, r: ReqId, i: nat, j: nat, begin: int, span: nat)
    requires i < j <= |run.labels| && j < |run.states| && InWindow(run, r, i, j, begin, span)
    ensures InWindow(run, r, i, j - 1, begin, span)
  {
  }

  lemma {:induction false} EnvInTime(run: Run, r: ReqId, i: nat, j: nat, begin: int, span: nat)
    requires Path(run, r, i, j) && PositionAt(run, r, i) == Top(Start) && InWindow(run, r, i, j, begin, span)
    ensures InTime(EnvOf(run, r, i, j, begin), PositionAt(run, r, j), LastReading(run, r, i, j, begin), begin, span)
    decreases j - i
  {
    if i < j {
      PathPrefix(run, r, i, j);
      WindowPrefix(run, r, i, j, begin, span);
      EnvInTime(run, r, i, j - 1, begin, span);
      StepInTime(run, r, i, j, begin, span, EnvOf(run, r, i, j - 1, begin));
    }
  }

  /** In every run an authenticated call whose own clock readings lie within less than one
      session age makes at most four requests, finished or not. */
  lemma FourSendsInEveryRun(run: Run, r: ReqId, i: nat, j: nat, begin: int, span: nat)
    requires IsRun(run) && i <= j < |run.states| && IsCall(run, r, i, j)
    requires InWindow(run, r, i, j, begin, span) && span < DIGEST_SESSION_MAX_AGE
    ensures SendsOf(run, r, i, j) <= 4
  {
    var env := EnvOf(run, r, i, j, begin);
    EnvFeeds(run, r, i, j, begin);
    CallPath(run, r, i, j);
    EnvInTime(run, r, i, j, begin, span);
    CallFromStart(run, r, i, j, env);
    SendBound(Core(run.states[i].shared), env, begin, span);
  }
}
