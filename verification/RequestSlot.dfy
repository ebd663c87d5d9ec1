/**
  The per-device request slot of the Shelly client: a channel holding at most
  one token (`gate`), a count of announced FBS requests, and the cancel function
  of the Admin probe that currently owns the slot.

  The counter and the cancel function are guarded by a mutex; the channel is not.
  Any number of Admin and FBS requests run interleaved.  A step is one critical
  section or one channel operation, except that `acquireAdmin` performs a channel
  operation inside its critical section and is therefore cut into several steps
  that run while the request owns the mutex.
 */
module RequestSlot {
  import opened Optional

  type ReqId = nat

  datatype Priority = Admin | Fbs

  /** Why a request context is over, first cause kept; `Live` while it is not. */
  datatype Cause = Live | Deferred | CallerDone | Finished

  datatype Pc =
    // acquireAdmin
    | AdminArrived | AdminLocking | AdminLocked | AdminChecked | AdminTook | AdminRegistered | AdminRefused
    // acquireFBS
    | FbsArrived | FbsCancelling(victim: Option<ReqId>) | FbsWaiting | FbsTook | FbsGaveUp
    // doGETWithPriority between acquiring and releasing
    | Calling | BodyOpen
    // the release closures
    | Clearing | Cancelling | Putting
    | Done

  /** `acquires` and `releases` count channel receives and sends by this request. */
  datatype Request = Request(priority: Priority, pc: Pc, ctx: Cause, closable: bool, acquires: nat, releases: nat)

  /** The fields of `deviceAuthState` other than the session. */
  datatype Shared = Shared(gate: int, fbsWaiters: int, activeAdminCancel: Option<ReqId>)

  const GATE_CAPACITY: nat := 1

  datatype Slot = Slot(shared: Shared, mu: Option<ReqId>, reqs: map<ReqId, Request>)

  // The effect of each atomic piece of the code on the shared fields.

  const FreshShared := Shared(1, 0, None)

  function TakeToken(d: Shared): Shared { d.(gate := d.gate - 1) }

  function PutToken(d: Shared): Shared { d.(gate := d.gate + 1) }

  function RegisterAdmin(d: Shared, r: ReqId): Shared { d.(activeAdminCancel := Some(r)) }

  function ClearAdmin(d: Shared): Shared { d.(activeAdminCancel := None) }

  function AnnounceFbs(d: Shared): Shared { d.(fbsWaiters := d.fbsWaiters + 1) }

  function WithdrawFbs(d: Shared): Shared { d.(fbsWaiters := d.fbsWaiters - 1) }

  /** `deviceAuthState` itself; each method is one uninterrupted piece of the code. */
  class DeviceAuthState {
    var gate: int
    var fbsWaiters: int
    var activeAdminCancel: Option<ReqId>

    function View(): Shared
      reads this
    {
      Shared(gate, fbsWaiters, activeAdminCancel)
    }

    constructor ()
      ensures View() == FreshShared
    {
      gate, fbsWaiters, activeAdminCancel := 1, 0, None;
    }

    /** acquireAdmin when nothing else touches the channel while the mutex is held: its steps
        taken one after the other. */
    method AcquireAdmin(r: ReqId, ctxDone: bool) returns (granted: bool)
      modifies this
      ensures granted <==> !ctxDone && old(fbsWaiters) <= 0 && old(gate) > 0
      ensures View() == if granted then RegisterAdmin(TakeToken(old(View())), r) else old(View())
      ensures (View(), granted) == AcquireAlone(old(View()), r, if ctxDone then CallerDone else Live)
    {
      if ctxDone || fbsWaiters > 0 {
        return false;
      }
      if gate <= 0 {
        return false;
      }
      gate := gate - 1;
      activeAdminCancel := Some(r);
      granted := true;
    }

    /** First critical section of acquireFBS. */
    method Announce() returns (victim: Option<ReqId>)
      modifies this
      ensures View() == AnnounceFbs(old(View())) && victim == old(activeAdminCancel)
    {
      fbsWaiters := fbsWaiters + 1;
      victim := activeAdminCancel;
    }

    /** The select of acquireFBS: the token if there is one, the context otherwise. */
    method TryTake() returns (taken: bool)
      modifies this
      ensures taken <==> old(gate) > 0
      ensures View() == if taken then TakeToken(old(View())) else old(View())
    {
      taken := gate > 0;
      if taken {
        gate := gate - 1;
      }
    }

    /** Second critical section of acquireFBS, on either branch. */
    method Withdraw()
      modifies this
      ensures View() == WithdrawFbs(old(View()))
    {
      fbsWaiters := fbsWaiters - 1;
    }

    /** Critical section of the Admin release closure. */
    method Clear()
      modifies this
      ensures View() == ClearAdmin(old(View()))
    {
      activeAdminCancel := None;
    }

    /** The channel send of release; it needs room in the channel. */
    method Release()
      requires gate < GATE_CAPACITY
      modifies this
      ensures View() == PutToken(old(View()))
    {
      gate := gate + 1;
    }
  }

  // ---------------------------------------------------------------- the steps

  datatype Label =
    | Arrive(r: ReqId, priority: Priority)
    | CallerCancel(r: ReqId)
    | AdminBegin(r: ReqId)
    | AdminLock(r: ReqId)
    | AdminCheckWaiters(r: ReqId)
    | AdminTryGate(r: ReqId)
    | AdminRegister(r: ReqId)
    | AdminUnlock(r: ReqId)
    | AdminRefuse(r: ReqId)
    | FbsAnnounce(r: ReqId)
    | FbsCancelVictim(r: ReqId)
    | FbsTake(r: ReqId)
    | FbsAbandon(r: ReqId)
    | FbsWithdraw(r: ReqId)
    | FinishError(r: ReqId)
    | FinishResponse(r: ReqId)
    | CloseBody(r: ReqId)
    | ReleaseClear(r: ReqId)
    | ReleaseCancel(r: ReqId)
    | ReleasePut(r: ReqId)

  const Init := Slot(FreshShared, None, map[])

  function Fresh(priority: Priority): Request {
    Request(priority, if priority == Admin then AdminArrived else FbsArrived, Live, false, 0, 0)
  }

  /** Go contexts keep the first cancellation. */
  function Cancelled(q: Request, why: Cause): Request {
    if q.ctx == Live then q.(ctx := why) else q
  }

  function ReleaseEntry(p: Priority): Pc {
    if p == Admin then Clearing else Putting
  }

  /** What one step does to the shared fields, the mutex and the request that takes it. */
  datatype Move = Move(shared: Shared, mu: Option<ReqId>, q: Request)

  predicate CanMove(d: Shared, mu: Option<ReqId>, q: Request, l: Label) {
    match l
    case Arrive(_, _) => false
    case CallerCancel(_) => true
    case AdminBegin(_) => q.pc == AdminArrived
    case AdminLock(_) => q.pc == AdminLocking && mu == None
    case AdminCheckWaiters(_) => q.pc == AdminLocked
    case AdminTryGate(_) => q.pc == AdminChecked
    case AdminRegister(_) => q.pc == AdminTook
    case AdminUnlock(_) => q.pc == AdminRegistered
    case AdminRefuse(_) => q.pc == AdminRefused
    case FbsAnnounce(_) => q.pc == FbsArrived && mu == None
    case FbsCancelVictim(_) => q.pc.FbsCancelling?
    case FbsTake(_) => q.pc == FbsWaiting && d.gate > 0
    case FbsAbandon(_) => q.pc == FbsWaiting && q.ctx != Live
    case FbsWithdraw(_) => (q.pc == FbsTook || q.pc == FbsGaveUp) && mu == None
    case FinishError(_) => q.pc == Calling
    case FinishResponse(_) => q.pc == Calling
    case CloseBody(_) => q.closable
    case ReleaseClear(_) => q.pc == Clearing && mu == None
    case ReleaseCancel(_) => q.pc == Cancelling
    case ReleasePut(_) => q.pc == Putting && d.gate < GATE_CAPACITY
  }

  function Moved(d: Shared, mu: Option<ReqId>, q: Request, l: Label): Move
    requires CanMove(d, mu, q, l)
  {
    match l
    case CallerCancel(_) => Move(d, mu, Cancelled(q, CallerDone))
    case AdminBegin(_) => Move(d, mu, q.(pc := if q.ctx != Live then Done else AdminLocking))
    case AdminLock(r) => Move(d, Some(r), q.(pc := AdminLocked))
    case AdminCheckWaiters(_) => Move(d, mu, q.(pc := if d.fbsWaiters > 0 then AdminRefused else AdminChecked))
    case AdminTryGate(_) =>
      if d.gate > 0 then Move(TakeToken(d), mu, q.(pc := AdminTook, acquires := q.acquires + 1))
      else Move(d, mu, q.(pc := AdminRefused))
    case AdminRegister(r) => Move(RegisterAdmin(d, r), mu, q.(pc := AdminRegistered))
    case AdminUnlock(_) => Move(d, None, q.(pc := Calling))
    case AdminRefuse(_) => Move(d, None, q.(pc := Done))
    case FbsAnnounce(_) => Move(AnnounceFbs(d), mu, q.(pc := FbsCancelling(d.activeAdminCancel)))
    case FbsCancelVictim(_) => Move(d, mu, q.(pc := FbsWaiting))
    case FbsTake(_) => Move(TakeToken(d), mu, q.(pc := FbsTook, acquires := q.acquires + 1))
    case FbsAbandon(_) => Move(d, mu, q.(pc := FbsGaveUp))
    case FbsWithdraw(_) => Move(WithdrawFbs(d), mu, q.(pc := if q.pc == FbsTook then Calling else Done))
    case FinishError(_) => Move(d, mu, q.(pc := ReleaseEntry(q.priority)))
    case FinishResponse(_) => Move(d, mu, q.(pc := BodyOpen, closable := true))
    case CloseBody(_) =>
      // once.Do: only the first Close runs the release closure
      Move(d, mu, if q.pc == BodyOpen then q.(pc := ReleaseEntry(q.priority)) else q)
    case ReleaseClear(_) => Move(ClearAdmin(d), mu, q.(pc := Cancelling))
    case ReleaseCancel(_) => Move(d, mu, Cancelled(q, Finished).(pc := Putting))
    case ReleasePut(_) => Move(PutToken(d), mu, q.(pc := Done, releases := q.releases + 1))
  }

  /** The steps of one acquireAdmin that nothing interrupts: the fields they leave and
      whether the probe was admitted. */
  function AcquireAlone(d: Shared, r: ReqId, ctx: Cause): (Shared, bool) {
    var begun := Moved(d, None, Fresh(Admin).(ctx := ctx), AdminBegin(r));
    if begun.q.pc == Done then (begun.shared, false)
    else
      var locked := Moved(begun.shared, begun.mu, begun.q, AdminLock(r));
      var checked := Moved(locked.shared, locked.mu, locked.q, AdminCheckWaiters(r));
      if checked.q.pc == AdminRefused then (Moved(checked.shared, checked.mu, checked.q, AdminRefuse(r)).shared, false)
      else
        var tried := Moved(checked.shared, checked.mu, checked.q, AdminTryGate(r));
        if tried.q.pc == AdminRefused then (Moved(tried.shared, tried.mu, tried.q, AdminRefuse(r)).shared, false)
        else
          var registered := Moved(tried.shared, tried.mu, tried.q, AdminRegister(r));
          (Moved(registered.shared, registered.mu, registered.q, AdminUnlock(r)).shared, true)
  }

  predicate At(s: Slot, r: ReqId, pc: Pc) {
    r in s.reqs && s.reqs[r].pc == pc
  }

  predicate Enabled(s: Slot, l: Label) {
    if l.Arrive? then l.r !in s.reqs
    else l.r in s.reqs && CanMove(s.shared, s.mu, s.reqs[l.r], l)
  }

  /** The request whose context a step cancels on behalf of another request, if any. */
  function Victim(s: Slot, l: Label): Option<ReqId>
    requires Enabled(s, l)
  {
    if l.FbsCancelVictim? then s.reqs[l.r].pc.victim else None
  }

  function CancelIn(reqs: map<ReqId, Request>, victim: Option<ReqId>): map<ReqId, Request> {
    if victim.Some? && victim.value in reqs
    then reqs[victim.value := Cancelled(reqs[victim.value], Deferred)]
    else reqs
  }

  function Next(s: Slot, l: Label): Slot
    requires Enabled(s, l)
  {
    if l.Arrive? then s.(reqs := s.reqs[l.r := Fresh(l.priority)])
    else
      var m := Moved(s.shared, s.mu, s.reqs[l.r], l);
      Slot(m.shared, m.mu, CancelIn(s.reqs[l.r := m.q], Victim(s, l)))
  }

  /** A run: `labels[i]` leads from `states[i]` to `states[i + 1]`. */
  datatype Run = Run(states: seq<Slot>, labels: seq<Label>)

  ghost predicate IsRun(run: Run) {
    && |run.states| == |run.labels| + 1
    && run.states[0] == Init
    && forall i :: 0 <= i < |run.labels| ==>
         Enabled(run.states[i], run.labels[i]) && run.states[i + 1] == Next(run.states[i], run.labels[i])
  }

  // ----------------------------------------------------------- the invariant

  /** The request has received the token and has not yet sent it back. */
  predicate Owes(pc: Pc) {
    pc.AdminTook? || pc.AdminRegistered? || pc.FbsTook? || pc.Calling? || pc.BodyOpen? ||
    pc.Clearing? || pc.Cancelling? || pc.Putting?
  }

  /** The request is counted in fbsWaiters. */
  predicate Announced(pc: Pc) {
    pc.FbsCancelling? || pc.FbsWaiting? || pc.FbsTook? || pc.FbsGaveUp?
  }

  predicate InsideLock(pc: Pc) {
    pc.AdminLocked? || pc.AdminChecked? || pc.AdminTook? || pc.AdminRegistered? || pc.AdminRefused?
  }

  predicate AdminOnly(pc: Pc) {
    InsideLock(pc) || pc.AdminArrived? || pc.AdminLocking? || pc.Clearing? || pc.Cancelling?
  }

  predicate FbsOnly(pc: Pc) {
    Announced(pc) || pc.FbsArrived?
  }

  /** An Admin probe whose cancel function is the one stored in the shared field. */
  predicate Registered(q: Request) {
    q.priority == Admin && (q.pc.AdminRegistered? || q.pc.Calling? || q.pc.BodyOpen? || q.pc.Clearing?)
  }

  /** An Admin probe that is using the device, not yet releasing it. */
  predicate Probing(q: Request) {
    q.priority == Admin && (q.pc.Calling? || q.pc.BodyOpen?)
  }

  function Owners(s: Slot): set<ReqId> {
    set r | r in s.reqs && Owes(s.reqs[r].pc)
  }

  function Announcers(s: Slot): set<ReqId> {
    set r | r in s.reqs && Announced(s.reqs[r].pc)
  }

  ghost predicate TokenInv(s: Slot) {
    && s.shared.gate + |Owners(s)| == 1
    && s.shared.gate >= 0
  }

  ghost predicate WaiterInv(s: Slot) {
    s.shared.fbsWaiters == |Announcers(s)|
  }

  ghost predicate LocalInv(q: Request) {
    && (AdminOnly(q.pc) ==> q.priority == Admin)
    && (FbsOnly(q.pc) ==> q.priority == Fbs)
    && q.acquires <= 1
    && q.releases <= q.acquires
    && (Owes(q.pc) <==> q.acquires == 1 && q.releases == 0)
    && (q.acquires == 1 && q.releases == 1 ==> q.pc == Done)
    && (q.closable ==> q.acquires == 1)
  }

  /** The mutex is owned by the one request inside acquireAdmin's critical section. */
  ghost predicate MutexInv(s: Slot) {
    && (forall r :: r in s.reqs ==> (InsideLock(s.reqs[r].pc) <==> s.mu == Some(r)))
    && (s.mu.Some? ==> s.mu.value in s.reqs)
  }

  /** The stored cancel function is that of the one registered probe. */
  ghost predicate RegisteredInv(s: Slot) {
    && (forall r :: r in s.reqs ==> (Registered(s.reqs[r]) <==> s.shared.activeAdminCancel == Some(r)))
    && (s.shared.activeAdminCancel.Some? ==> s.shared.activeAdminCancel.value in s.reqs)
  }

  /** Being admitted: the waiter count was found zero and the mutex is still held. */
  predicate Admitting(pc: Pc) {
    pc.AdminChecked? || pc.AdminTook? || pc.AdminRegistered?
  }

  ghost predicate AdmissionInv(s: Slot) {
    forall a, f :: a in s.reqs && f in s.reqs && Admitting(s.reqs[a].pc) ==> !Announced(s.reqs[f].pc)
  }

  ghost predicate PreemptInv(s: Slot) {
    forall f, a :: f in s.reqs && a in s.reqs && Announced(s.reqs[f].pc) && Probing(s.reqs[a]) ==>
      s.reqs[f].pc == FbsCancelling(Some(a)) || s.reqs[a].ctx != Live
  }

  ghost predicate SlotInv(s: Slot) {
    && TokenInv(s) && WaiterInv(s) && MutexInv(s) && RegisteredInv(s) && AdmissionInv(s) && PreemptInv(s)
    && (forall r :: r in s.reqs ==> LocalInv(s.reqs[r]))
  }

  // ------------------------------------------------------------ its proofs

  function One(b: bool): int { if b then 1 else 0 }

  lemma MoveLocal(d: Shared, mu: Option<ReqId>, q: Request, l: Label)
    requires CanMove(d, mu, q, l) && LocalInv(q)
    ensures LocalInv(Moved(d, mu, q, l).q)
  {
  }

  lemma MoveToken(d: Shared, mu: Option<ReqId>, q: Request, l: Label)
    requires CanMove(d, mu, q, l)
    ensures var m := Moved(d, mu, q, l);
      && (d.gate >= 0 ==> m.shared.gate >= 0)
      && m.shared.gate + One(Owes(m.q.pc)) == d.gate + One(Owes(q.pc))
  {
  }

  lemma MoveWaiters(d: Shared, mu: Option<ReqId>, q: Request, l: Label)
    requires CanMove(d, mu, q, l)
    ensures var m := Moved(d, mu, q, l);
      m.shared.fbsWaiters - One(Announced(m.q.pc)) == d.fbsWaiters - One(Announced(q.pc))
  {
  }

  /** Accounting of one step: the token and the counter move with the request. */
  lemma MoveCounts(d: Shared, mu: Option<ReqId>, q: Request, l: Label)
    requires CanMove(d, mu, q, l) && LocalInv(q)
    ensures var m := Moved(d, mu, q, l);
      && LocalInv(m.q)
      && (d.gate >= 0 ==> m.shared.gate >= 0)
      && m.shared.gate + One(Owes(m.q.pc)) == d.gate + One(Owes(q.pc))
      && m.shared.fbsWaiters - One(Announced(m.q.pc)) == d.fbsWaiters - One(Announced(q.pc))
  {
    MoveLocal(d, mu, q, l);
    MoveToken(d, mu, q, l);
    MoveWaiters(d, mu, q, l);
  }

  /** How one step touches the mutex and the registered cancel function. */
  lemma MoveLocks(d: Shared, mu: Option<ReqId>, q: Request, l: Label)
    requires CanMove(d, mu, q, l) && LocalInv(q)
    requires InsideLock(q.pc) <==> mu == Some(l.r)
    ensures var m := Moved(d, mu, q, l);
      && (InsideLock(m.q.pc) <==> m.mu == Some(l.r))
      && (m.mu != mu ==> if mu == None then m.mu == Some(l.r) else mu == Some(l.r) && m.mu == None)
      && (Registered(m.q) && !Registered(q) ==>
            q.pc == AdminTook && m.shared.activeAdminCancel == Some(l.r))
      && (!Registered(m.q) && Registered(q) ==> m.shared.activeAdminCancel == None)
      && (Registered(m.q) == Registered(q) ==>
            m.shared.activeAdminCancel == d.activeAdminCancel)
  {
  }

  lemma UpdateSets(s: Slot, t: Slot, r: ReqId)
    requires r in t.reqs && s.reqs.Keys + {r} == t.reqs.Keys
    requires forall x :: x in s.reqs && x != r ==> s.reqs[x].pc == t.reqs[x].pc
    ensures Owners(t) == if Owes(t.reqs[r].pc) then Owners(s) + {r} else Owners(s) - {r}
    ensures Announcers(t) == if Announced(t.reqs[r].pc) then Announcers(s) + {r} else Announcers(s) - {r}
  {
    assert forall x :: x in t.reqs && x != r ==> x in s.reqs;
  }

  /** Only the mover's program counter changes; a context once over stays over. */
  ghost predicate SameButOne(s: Slot, t: Slot, r: ReqId) {
    && r in t.reqs && s.reqs.Keys + {r} == t.reqs.Keys
    && (forall x :: x in s.reqs && x != r ==> s.reqs[x].(ctx := t.reqs[x].ctx) == t.reqs[x])
    && (forall x :: x in s.reqs && s.reqs[x].ctx != Live ==> t.reqs[x].ctx == s.reqs[x].ctx)
  }

  /** A cancellation touches contexts only, and none that is over already. */
  lemma CancelTouches(reqs: map<ReqId, Request>, victim: Option<ReqId>)
    ensures var after := CancelIn(reqs, victim);
      && after.Keys == reqs.Keys
      && (forall x :: x in reqs ==> reqs[x].(ctx := after[x].ctx) == after[x])
      && (forall x :: x in reqs && reqs[x].ctx != Live ==> after[x].ctx == reqs[x].ctx)
  {
  }

  lemma MovesOne(s: Slot, l: Label)
    requires Enabled(s, l)
    ensures SameButOne(s, Next(s, l), l.r)
  {
    if !l.Arrive? {
      var m := Moved(s.shared, s.mu, s.reqs[l.r], l);
      CancelTouches(s.reqs[l.r := m.q], Victim(s, l));
      if s.reqs[l.r].ctx != Live {
        ContextKept(s.shared, s.mu, s.reqs[l.r], l);
      }
      assert s.reqs.Keys + {l.r} == s.reqs.Keys;
    }
  }

  lemma ContextKept(d: Shared, mu: Option<ReqId>, q: Request, l: Label)
    requires CanMove(d, mu, q, l) && q.ctx != Live
    ensures Moved(d, mu, q, l).q.ctx == q.ctx
  {
  }

  lemma CountFrame(s: Slot, t: Slot, r: ReqId)
    requires TokenInv(s) && WaiterInv(s)
    requires r in t.reqs && s.reqs.Keys + {r} == t.reqs.Keys
    requires forall x :: x in s.reqs && x != r ==> s.reqs[x].pc == t.reqs[x].pc
    requires t.shared.gate >= 0
    requires t.shared.gate + One(Owes(t.reqs[r].pc)) == s.shared.gate + One(r in s.reqs && Owes(s.reqs[r].pc))
    requires t.shared.fbsWaiters - One(Announced(t.reqs[r].pc)) ==
             s.shared.fbsWaiters - One(r in s.reqs && Announced(s.reqs[r].pc))
    ensures TokenInv(t) && WaiterInv(t)
  {
    UpdateSets(s, t, r);
    assert r in s.reqs && Owes(s.reqs[r].pc) <==> r in Owners(s);
    assert r in s.reqs && Announced(s.reqs[r].pc) <==> r in Announcers(s);
  }

  lemma CountStep(s: Slot, l: Label)
    requires TokenInv(s) && WaiterInv(s) && Enabled(s, l)
    requires forall r :: r in s.reqs ==> LocalInv(s.reqs[r])
    ensures TokenInv(Next(s, l)) && WaiterInv(Next(s, l))
  {
    MovesOne(s, l);
    if !l.Arrive? {
      MoveCounts(s.shared, s.mu, s.reqs[l.r], l);
    }
    CountFrame(s, Next(s, l), l.r);
  }

  lemma SoleOwner(s: Slot, a: ReqId, b: ReqId)
    requires TokenInv(s)
    requires a in Owners(s) && b in Owners(s)
    ensures a == b && s.shared.gate == 0
  {
    if a != b {
      assert {a, b} <= Owners(s);
      Subset({a, b}, Owners(s));
    }
    assert Owners(s) != {};
  }

  lemma Subset<T>(a: set<T>, b: set<T>)
    requires a <= b
    ensures |a| <= |b|
  {
    if a != {} {
      var x :| x in a;
      Subset(a - {x}, b - {x});
    }
  }

  /** The request as it was before the step; a newcomer counts as just arrived. */
  function Before(s: Slot, l: Label): Request {
    if l.r in s.reqs then s.reqs[l.r] else Fresh(if l.Arrive? then l.priority else Admin)
  }

  lemma MutexFrame(s: Slot, t: Slot, r: ReqId, q: Request)
    requires MutexInv(s) && SameButOne(s, t, r)
    requires q == if r in s.reqs then s.reqs[r] else q
    requires r !in s.reqs ==> !InsideLock(q.pc)
    requires InsideLock(t.reqs[r].pc) <==> t.mu == Some(r)
    requires t.mu != s.mu ==> if s.mu == None then t.mu == Some(r) else s.mu == Some(r) && t.mu == None
    ensures MutexInv(t)
  {
  }

  lemma RegisteredFrame(s: Slot, t: Slot, r: ReqId, q: Request)
    requires TokenInv(s) && RegisteredInv(s) && SameButOne(s, t, r)
    requires if r in s.reqs then q == s.reqs[r] else !Registered(q)
    requires Registered(t.reqs[r]) && !Registered(q) ==>
               r in s.reqs && q.pc == AdminTook && t.shared.activeAdminCancel == Some(r)
    requires !Registered(t.reqs[r]) && Registered(q) ==> t.shared.activeAdminCancel == None
    requires Registered(t.reqs[r]) == Registered(q) ==>
               t.shared.activeAdminCancel == s.shared.activeAdminCancel
    ensures RegisteredInv(t)
  {
    if r in s.reqs && q.pc == AdminTook && s.shared.activeAdminCancel.Some? {
      SoleOwner(s, r, s.shared.activeAdminCancel.value);
    }
  }

  /** A step's effect on the probes and the announced requests, seen from the mover. */
  lemma MoveAdmits(d: Shared, mu: Option<ReqId>, q: Request, l: Label)
    requires CanMove(d, mu, q, l) && LocalInv(q)
    ensures var m := Moved(d, mu, q, l);
      && (Admitting(m.q.pc) && !Admitting(q.pc) ==> d.fbsWaiters <= 0)
      && (Announced(m.q.pc) && !Announced(q.pc) ==>
            mu == None && m.q.pc == FbsCancelling(d.activeAdminCancel))
      && (Announced(m.q.pc) && Announced(q.pc) ==> m.q.pc == q.pc || l.FbsCancelVictim? || !q.pc.FbsCancelling?)
      && (Probing(m.q) && !Probing(q) ==> q.pc == AdminRegistered)
      && (Probing(m.q) && Probing(q) ==> m.q.ctx == q.ctx || m.q.ctx != Live)
  {
  }

  lemma AdmissionFrame(s: Slot, t: Slot, r: ReqId, q: Request)
    requires MutexInv(s) && AdmissionInv(s) && WaiterInv(s) && SameButOne(s, t, r)
    requires if r in s.reqs then q == s.reqs[r] else !Admitting(q.pc) && !Announced(q.pc)
    requires Admitting(t.reqs[r].pc) && !Admitting(q.pc) ==> s.shared.fbsWaiters <= 0
    requires Announced(t.reqs[r].pc) && !Announced(q.pc) ==> s.mu == None
    requires !(Announced(t.reqs[r].pc) && Admitting(t.reqs[r].pc))
    ensures AdmissionInv(t)
  {
    forall a, f | a in t.reqs && f in t.reqs && Admitting(t.reqs[a].pc)
      ensures !Announced(t.reqs[f].pc)
    {
      if a == r && !Admitting(q.pc) {
        assert f != r ==> f !in Announcers(s);
      } else if a != r && f == r {
        assert InsideLock(s.reqs[a].pc);
      }
    }
  }

  lemma PreemptFrame(s: Slot, t: Slot, r: ReqId, q: Request, victim: Option<ReqId>)
    requires RegisteredInv(s) && AdmissionInv(s) && PreemptInv(s) && SameButOne(s, t, r)
    requires if r in s.reqs then q == s.reqs[r] else !Probing(q) && !Announced(q.pc)
    requires Probing(t.reqs[r]) && !Probing(q) ==> q.pc == AdminRegistered && r in s.reqs
    requires Announced(t.reqs[r].pc) && !Announced(q.pc) ==>
               t.reqs[r].pc == FbsCancelling(s.shared.activeAdminCancel)
    requires Announced(t.reqs[r].pc) && Announced(q.pc) ==>
               t.reqs[r].pc == q.pc || !q.pc.FbsCancelling? || q.pc.victim == victim
    requires victim.Some? && victim.value in t.reqs ==> t.reqs[victim.value].ctx != Live
    requires Probing(t.reqs[r]) ==> !Announced(t.reqs[r].pc)
    ensures PreemptInv(t)
  {
    forall f, a | f in t.reqs && a in t.reqs && Announced(t.reqs[f].pc) && Probing(t.reqs[a])
      ensures t.reqs[f].pc == FbsCancelling(Some(a)) || t.reqs[a].ctx != Live
    {
      assert f != a;
      if a == r {
        assert Announced(s.reqs[f].pc);
      } else if f == r {
        assert Probing(s.reqs[a]) && Registered(s.reqs[a]);
      }
    }
  }

  lemma MutexStep(s: Slot, l: Label)
    requires MutexInv(s) && Enabled(s, l)
    requires l.r in s.reqs ==> LocalInv(s.reqs[l.r])
    ensures MutexInv(Next(s, l))
  {
    MovesOne(s, l);
    if !l.Arrive? {
      MoveLocks(s.shared, s.mu, s.reqs[l.r], l);
    }
    MutexFrame(s, Next(s, l), l.r, Before(s, l));
  }

  lemma RegisteredStep(s: Slot, l: Label)
    requires TokenInv(s) && MutexInv(s) && RegisteredInv(s) && Enabled(s, l)
    requires l.r in s.reqs ==> LocalInv(s.reqs[l.r])
    ensures RegisteredInv(Next(s, l))
  {
    MovesOne(s, l);
    if !l.Arrive? {
      MoveLocks(s.shared, s.mu, s.reqs[l.r], l);
    }
    RegisteredFrame(s, Next(s, l), l.r, Before(s, l));
  }

  lemma AdmissionStep(s: Slot, l: Label)
    requires MutexInv(s) && AdmissionInv(s) && WaiterInv(s) && Enabled(s, l)
    requires l.r in s.reqs ==> LocalInv(s.reqs[l.r])
    ensures AdmissionInv(Next(s, l))
  {
    MovesOne(s, l);
    if !l.Arrive? {
      MoveAdmits(s.shared, s.mu, s.reqs[l.r], l);
    }
    AdmissionFrame(s, Next(s, l), l.r, Before(s, l));
  }

  lemma PreemptStep(s: Slot, l: Label)
    requires RegisteredInv(s) && AdmissionInv(s) && PreemptInv(s) && Enabled(s, l)
    requires l.r in s.reqs ==> LocalInv(s.reqs[l.r])
    ensures PreemptInv(Next(s, l))
  {
    MovesOne(s, l);
    if !l.Arrive? {
      MoveAdmits(s.shared, s.mu, s.reqs[l.r], l);
    }
    PreemptFrame(s, Next(s, l), l.r, Before(s, l), Victim(s, l));
  }

  lemma SlotStep(s: Slot, l: Label)
    requires SlotInv(s) && Enabled(s, l)
    ensures SlotInv(Next(s, l))
  {
    CountStep(s, l);
    MutexStep(s, l);
    RegisteredStep(s, l);
    AdmissionStep(s, l);
    PreemptStep(s, l);
    forall r | r in Next(s, l).reqs ensures LocalInv(Next(s, l).reqs[r]) {
      LocalStep(s, l, r);
    }
  }

  /** After its own step a request is as the move says, but for its context. */
  lemma OwnMove(s: Slot, l: Label)
    requires Enabled(s, l) && !l.Arrive?
    ensures var q := Moved(s.shared, s.mu, s.reqs[l.r], l).q;
      l.r in Next(s, l).reqs && Next(s, l).reqs[l.r] == q.(ctx := Next(s, l).reqs[l.r].ctx)
  {
  }

  lemma LocalContext(q: Request, ctx: Cause)
    requires LocalInv(q)
    ensures LocalInv(q.(ctx := ctx))
  {
  }

  lemma LocalStep(s: Slot, l: Label, r: ReqId)
    requires Enabled(s, l) && r in Next(s, l).reqs
    requires r in s.reqs ==> LocalInv(s.reqs[r])
    ensures LocalInv(Next(s, l).reqs[r])
  {
    MovesOne(s, l);
    if r != l.r {
      LocalContext(s.reqs[r], Next(s, l).reqs[r].ctx);
    } else if !l.Arrive? {
      MoveCounts(s.shared, s.mu, s.reqs[l.r], l);
      OwnMove(s, l);
      LocalContext(Moved(s.shared, s.mu, s.reqs[l.r], l).q, Next(s, l).reqs[r].ctx);
    }
  }

  // ------------------------------------------------------- the main results

  lemma {:induction false} RunInv(run: Run, i: nat)
    requires IsRun(run) && i < |run.states|
    ensures SlotInv(run.states[i])
  {
    if i == 0 {
      assert Owners(Init) == {} && Announcers(Init) == {};
    } else {
      RunInv(run, i - 1);
      SlotStep(run.states[i - 1], run.labels[i - 1]);
    }
  }

  /** Tokens in the gate plus requests owing a release is exactly one, always;
      so two requests that are talking to the device are the same request. */
  lemma OneTokenEver(run: Run, i: nat)
    requires IsRun(run) && i < |run.states|
    ensures var s := run.states[i];
      && s.shared.gate + |Owners(s)| == 1
      && 0 <= s.shared.gate <= GATE_CAPACITY
      && forall a, b :: a in s.reqs && b in s.reqs && Owes(s.reqs[a].pc) && Owes(s.reqs[b].pc) ==> a == b
  {
    RunInv(run, i);
    var s := run.states[i];
    forall a, b | a in s.reqs && b in s.reqs && Owes(s.reqs[a].pc) && Owes(s.reqs[b].pc)
      ensures a == b
    {
      SoleOwner(s, a, b);
    }
  }

  /** Whoever reaches the release send finds room in the channel, and whoever
      is finished has sent back exactly what it received, whatever its exit path
      and however often its response body was closed. */
  lemma ReleasedExactlyOnce(run: Run, i: nat, r: ReqId)
    requires IsRun(run) && i < |run.states| && r in run.states[i].reqs
    ensures var q := run.states[i].reqs[r];
      && (q.pc == Putting ==> Enabled(run.states[i], ReleasePut(r)))
      && (q.pc == Done ==> q.releases == q.acquires <= 1)
      && (q.pc != Done ==> q.releases == 0)
      && (q.pc == Done && q.closable ==> Enabled(run.states[i], CloseBody(r)))
      && (q.pc == Done && q.closable ==> Next(run.states[i], CloseBody(r)) == run.states[i])
  {
    RunInv(run, i);
    var s := run.states[i];
    assert LocalInv(s.reqs[r]);
    if s.reqs[r].pc == Putting {
      assert r in Owners(s);
    }
    if s.reqs[r].pc == Done && s.reqs[r].closable {
      assert s.reqs[r := s.reqs[r]] == s.reqs;
    }
  }

  /** An FBS request that waits while an Admin probe is using the device waits
      for a probe whose context is already cancelled. */
  lemma WaitingFbsHasPreempted(run: Run, i: nat, f: ReqId, a: ReqId)
    requires IsRun(run) && i < |run.states|
    requires At(run.states[i], f, FbsWaiting)
    requires a in run.states[i].reqs && run.states[i].reqs[a].priority == Admin
    requires Owes(run.states[i].reqs[a].pc)
    ensures run.states[i].reqs[a].ctx != Live || run.states[i].reqs[a].pc in {Clearing, Cancelling, Putting}
  {
    RunInv(run, i);
  }

  /** How far an FBS request has come in acquireFBS: 0 before, 1 announced, 2 after. */
  function Stage(q: Request): nat {
    if q.pc == FbsArrived then 0 else if Announced(q.pc) then 1 else 2
  }

  lemma MoveStage(d: Shared, mu: Option<ReqId>, q: Request, l: Label)
    requires CanMove(d, mu, q, l) && LocalInv(q) && q.priority == Fbs
    ensures Moved(d, mu, q, l).q.priority == Fbs && Stage(q) <= Stage(Moved(d, mu, q, l).q)
  {
  }

  lemma StageStep(s: Slot, l: Label, r: ReqId)
    requires Enabled(s, l) && r in s.reqs && s.reqs[r].priority == Fbs && LocalInv(s.reqs[r])
    ensures r in Next(s, l).reqs && Next(s, l).reqs[r].priority == Fbs
    ensures Stage(s.reqs[r]) <= Stage(Next(s, l).reqs[r])
  {
    if r == l.r {
      MoveStage(s.shared, s.mu, s.reqs[r], l);
      OwnMove(s, l);
    } else {
      MovesOne(s, l);
    }
  }

  lemma {:induction false} StageRun(run: Run, i: nat, j: nat, r: ReqId)
    requires IsRun(run) && i <= j < |run.states|
    requires r in run.states[i].reqs && run.states[i].reqs[r].priority == Fbs
    ensures r in run.states[j].reqs && run.states[j].reqs[r].priority == Fbs
    ensures Stage(run.states[i].reqs[r]) <= Stage(run.states[j].reqs[r])
    decreases j - i
  {
    if i < j {
      StageRun(run, i, j - 1, r);
      RunInv(run, j - 1);
      StageStep(run.states[j - 1], run.labels[j - 1], r);
    }
  }

  /** From the moment an FBS request is announced until it is withdrawn from the
      waiter count, no Admin probe even reaches for the token of that device, and
      every probe that looks at the waiter count is refused. */
  lemma NoAdminAdmittedMeanwhile(run: Run, i: nat, k: nat, j: nat, f: ReqId)
    requires IsRun(run) && i <= k < j < |run.states|
    requires f in run.states[i].reqs && Announced(run.states[i].reqs[f].pc)
    requires f in run.states[j].reqs && Announced(run.states[j].reqs[f].pc)
    ensures !run.labels[k].AdminTryGate?
    ensures run.labels[k].AdminCheckWaiters? ==> At(run.states[k + 1], run.labels[k].r, AdminRefused)
    ensures forall a :: a in run.states[k].reqs ==> !Admitting(run.states[k].reqs[a].pc)
  {
    RunInv(run, i);
    RunInv(run, k);
    assert LocalInv(run.states[i].reqs[f]);
    StageRun(run, i, k, f);
    StageRun(run, k, j, f);
    assert LocalInv(run.states[k].reqs[f]);
    assert Announced(run.states[k].reqs[f].pc);
    assert f in Announcers(run.states[k]);
  }

  // ------------------------------------------ from acquiring to releasing

  /** The request has been let through to the device and has not begun to release. */
  predicate AfterCall(q: Request) {
    q.pc.BodyOpen? || q.pc.Clearing? || q.pc.Cancelling? || q.pc.Putting? || (q.pc.Done? && q.acquires == 1)
  }

  /** What comes after a call comes only from a call. */
  lemma MoveAfterCall(d: Shared, mu: Option<ReqId>, q: Request, l: Label)
    requires CanMove(d, mu, q, l) && LocalInv(q)
    ensures AfterCall(Moved(d, mu, q, l).q) ==> AfterCall(q) || q.pc.Calling?
  {
  }

  ghost predicate WasCalling(run: Run, i: nat, r: ReqId)
    requires i <= |run.states|
  {
    exists j :: 0 <= j < i && At(run.states[j], r, Calling)
  }

  lemma AfterCallStep(s: Slot, l: Label, r: ReqId)
    requires Enabled(s, l) && r in Next(s, l).reqs && AfterCall(Next(s, l).reqs[r])
    requires r in s.reqs ==> LocalInv(s.reqs[r])
    ensures r in s.reqs && (AfterCall(s.reqs[r]) || s.reqs[r].pc.Calling?)
  {
    if r != l.r {
      MovesOne(s, l);
    } else if !l.Arrive? {
      OwnMove(s, l);
      MoveAfterCall(s.shared, s.mu, s.reqs[r], l);
    }
  }

  lemma {:induction false} AfterCallWasCalling(run: Run, i: nat, r: ReqId)
    requires IsRun(run) && i < |run.states| && r in run.states[i].reqs && AfterCall(run.states[i].reqs[r])
    ensures WasCalling(run, i, r)
  {
    if i > 0 {
      RunInv(run, i - 1);
      AfterCallStep(run.states[i - 1], run.labels[i - 1], r);
      if AfterCall(run.states[i - 1].reqs[r]) {
        AfterCallWasCalling(run, i - 1, r);
      } else {
        assert At(run.states[i - 1], r, Calling);
      }
    }
  }

  lemma AcquiresGrow(s: Slot, l: Label, r: ReqId)
    requires Enabled(s, l) && r in s.reqs
    ensures r in Next(s, l).reqs && s.reqs[r].acquires <= Next(s, l).reqs[r].acquires
  {
    if r == l.r {
      OwnMove(s, l);
    } else {
      MovesOne(s, l);
    }
  }

  lemma {:induction false} AcquiresKept(run: Run, i: nat, j: nat, r: ReqId)
    requires IsRun(run) && i <= j < |run.states| && r in run.states[i].reqs
    ensures r in run.states[j].reqs && run.states[i].reqs[r].acquires <= run.states[j].reqs[r].acquires
    decreases j - i
  {
    if i < j {
      AcquiresKept(run, i, j - 1, r);
      AcquiresGrow(run.states[j - 1], run.labels[j - 1], r);
    }
  }

  /** A request that is releasing, or finished after it got the token, has talked to the
      device before; one that finished without the token never has. */
  lemma CalledExactlyWithToken(run: Run, i: nat, r: ReqId)
    requires IsRun(run) && i < |run.states| && r in run.states[i].reqs
    ensures var q := run.states[i].reqs[r];
      && (q.pc in {Clearing, Cancelling, Putting} || (q.pc == Done && q.acquires == 1) ==> WasCalling(run, i, r))
      && (q.acquires == 0 ==> !WasCalling(run, i, r))
  {
    if AfterCall(run.states[i].reqs[r]) {
      AfterCallWasCalling(run, i, r);
    }
    if run.states[i].reqs[r].acquires == 0 {
      forall j | 0 <= j < i ensures !At(run.states[j], r, Calling) {
        if At(run.states[j], r, Calling) {
          RunInv(run, j);
          assert LocalInv(run.states[j].reqs[r]);
          AcquiresKept(run, j, i, r);
        }
      }
    }
  }

  /** The steps of one acquireFBS that nothing interrupts, on a live context. */
  function AcquireFbsAlone(d: Shared, r: ReqId): (m: Move)
    requires d.gate > 0
  {
    var announced := Moved(d, None, Fresh(Fbs), FbsAnnounce(r));
    var cancelled := Moved(announced.shared, announced.mu, announced.q, FbsCancelVictim(r));
    var taken := Moved(cancelled.shared, cancelled.mu, cancelled.q, FbsTake(r));
    Moved(taken.shared, taken.mu, taken.q, FbsWithdraw(r))
  }

  /** A lone live FBS request on a free slot ends up talking to the device, owing the one
      token, and leaves no trace in the waiter count. */
  lemma FbsAlone(d: Shared, r: ReqId)
    requires d.gate > 0
    ensures var m := AcquireFbsAlone(d, r);
      && m.q.pc == Calling && Owes(m.q.pc) && m.q.acquires == 1 && m.q.releases == 0 && m.q.ctx == Live
      && m.shared == Shared(d.gate - 1, d.fbsWaiters, d.activeAdminCancel) && m.mu == None
  {
  }

  /** An FBS request whose context ends while there is no token leaves everything as it was. */
  lemma FbsGivesUpAlone(d: Shared, r: ReqId, why: Cause)
    requires why != Live
    ensures var announced := Moved(d, None, Fresh(Fbs).(ctx := why), FbsAnnounce(r));
      var cancelled := Moved(announced.shared, announced.mu, announced.q, FbsCancelVictim(r));
      var left := Moved(cancelled.shared, cancelled.mu, cancelled.q, FbsAbandon(r));
      var m := Moved(left.shared, left.mu, left.q, FbsWithdraw(r));
      m.shared == d && m.mu == None && m.q.pc == Done && m.q.acquires == 0
  {
  }

  // -------------------------------------------------- until the body is closed

  /** Only closing it ends an open body. */
  lemma MoveBodyOpen(d: Shared, mu: Option<ReqId>, q: Request, l: Label)
    requires CanMove(d, mu, q, l) && q.pc == BodyOpen && !l.CloseBody?
    ensures Moved(d, mu, q, l).q.pc == BodyOpen
  {
  }

  lemma {:induction false} BodyStaysOpen(run: Run, i: nat, j: nat, r: ReqId)
    requires IsRun(run) && i <= j < |run.states| && At(run.states[i], r, BodyOpen)
    requires forall k :: i <= k < j ==> run.labels[k] != CloseBody(r)
    ensures At(run.states[j], r, BodyOpen)
    decreases j - i
  {
    if i < j {
      BodyStaysOpen(run, i, j - 1, r);
      BodyStep(run.states[j - 1], run.labels[j - 1], r);
    }
  }

  lemma BodyStep(s: Slot, l: Label, r: ReqId)
    requires Enabled(s, l) && At(s, r, BodyOpen) && l != CloseBody(r)
    ensures At(Next(s, l), r, BodyOpen)
  {
    if r == l.r {
      MoveBodyOpen(s.shared, s.mu, s.reqs[r], l);
      OwnMove(s, l);
    } else {
      MovesOne(s, l);
    }
  }

  lemma ResponseOpensBody(s: Slot, r: ReqId)
    requires Enabled(s, FinishResponse(r))
    ensures At(Next(s, FinishResponse(r)), r, BodyOpen) && Next(s, FinishResponse(r)).reqs[r].closable
  {
  }

  /** From the response until its body is first closed the request keeps the slot: the gate
      stays empty and nobody else talks to the device. */
  lemma HeldUntilClose(run: Run, i: nat, j: nat, r: ReqId, other: ReqId)
    requires IsRun(run) && i < j < |run.states| && run.labels[i] == FinishResponse(r)
    requires forall k :: i < k < j ==> run.labels[k] != CloseBody(r)
    ensures At(run.states[j], r, BodyOpen) && run.states[j].shared.gate == 0
    ensures other != r && other in run.states[j].reqs ==> !Owes(run.states[j].reqs[other].pc)
  {
    ResponseOpensBody(run.states[i], r);
    BodyStaysOpen(run, i + 1, j, r);
    RunInv(run, j);
    assert r in Owners(run.states[j]);
    SoleOwner(run.states[j], r, r);
    if other != r && other in run.states[j].reqs && Owes(run.states[j].reqs[other].pc) {
      SoleOwner(run.states[j], r, other);
    }
  }

  // ------------------------------------------------------------------ contexts

  /** What the causes of an ended context say. */
  ghost predicate ContextInv(q: Request) {
    && (q.ctx == Deferred ==> q.priority == Admin)
    && (q.priority == Admin && q.acquires == 1 && (q.pc.Putting? || q.pc.Done?) ==> q.ctx != Live)
  }

  /** A cancelled probe is told that it was deferred, unless its context was over already, and
      nobody else's context is touched. */
  lemma PreemptionDefers(s: Slot, f: ReqId, a: ReqId)
    requires Enabled(s, FbsCancelVictim(f)) && a in s.reqs && a != f
    ensures var after := Next(s, FbsCancelVictim(f)).reqs;
      a in after && after[a].ctx ==
        if s.reqs[f].pc.victim == Some(a) && s.reqs[a].ctx == Live then Deferred else s.reqs[a].ctx
  {
  }

  lemma MoveContext(d: Shared, mu: Option<ReqId>, q: Request, l: Label)
    requires CanMove(d, mu, q, l) && LocalInv(q) && ContextInv(q)
    ensures ContextInv(Moved(d, mu, q, l).q)
  {
  }

  /** Captured cancel functions belong to probes. */
  ghost predicate CapturedInv(s: Slot) {
    && (s.shared.activeAdminCancel.Some? ==> IsProbe(s, s.shared.activeAdminCancel.value))
    && (forall f :: f in s.reqs && s.reqs[f].pc.FbsCancelling? && s.reqs[f].pc.victim.Some? ==> IsProbe(s, s.reqs[f].pc.victim.value))
  }

  predicate IsProbe(s: Slot, a: ReqId) { a in s.reqs && s.reqs[a].priority == Admin }

  lemma ProbesStay(s: Slot, l: Label, a: ReqId)
    requires Enabled(s, l) && IsProbe(s, a)
    ensures IsProbe(Next(s, l), a)
  {
    MovesOne(s, l);
    if a == l.r {
      OwnMove(s, l);
    }
  }

  lemma MoveCaptures(d: Shared, mu: Option<ReqId>, q: Request, l: Label)
    requires CanMove(d, mu, q, l) && LocalInv(q)
    ensures var m := Moved(d, mu, q, l);
      && (m.shared.activeAdminCancel == d.activeAdminCancel || m.shared.activeAdminCancel == None ||
          (m.shared.activeAdminCancel == Some(l.r) && q.priority == Admin))
      && (m.q.pc.FbsCancelling? ==> m.q.pc == q.pc || m.q.pc.victim == d.activeAdminCancel)
      && m.q.priority == q.priority
  {
  }

  lemma CapturedStep(s: Slot, l: Label)
    requires CapturedInv(s) && Enabled(s, l) && (l.r in s.reqs ==> LocalInv(s.reqs[l.r]))
    ensures CapturedInv(Next(s, l))
  {
    var t := Next(s, l);
    MovesOne(s, l);
    if !l.Arrive? {
      MoveCaptures(s.shared, s.mu, s.reqs[l.r], l);
      OwnMove(s, l);
    }
    forall a | IsProbe(s, a) ensures IsProbe(t, a) {
      ProbesStay(s, l, a);
    }
  }

  lemma ContextStep(s: Slot, l: Label, r: ReqId)
    requires CapturedInv(s) && Enabled(s, l) && r in Next(s, l).reqs
    requires forall x :: x in s.reqs ==> LocalInv(s.reqs[x]) && ContextInv(s.reqs[x])
    ensures ContextInv(Next(s, l).reqs[r])
  {
    if l.FbsCancelVictim? && r in s.reqs && r != l.r {
      PreemptionDefers(s, l.r, r);
      MovesOne(s, l);
    } else if r != l.r {
      OthersUntouched(s, l, r);
    } else if !l.Arrive? {
      MoveContext(s.shared, s.mu, s.reqs[r], l);
      OwnUntouched(s, l);
    }
  }

  /** Only a pre-emption touches another request's context. */
  lemma OthersUntouched(s: Slot, l: Label, r: ReqId)
    requires Enabled(s, l) && !l.FbsCancelVictim? && r != l.r && r in Next(s, l).reqs
    ensures r in s.reqs && Next(s, l).reqs[r] == s.reqs[r]
  {
  }

  /** A request that captures no cancel function of its own leaves its context to its move. */
  lemma OwnUntouched(s: Slot, l: Label)
    requires CapturedInv(s) && Enabled(s, l) && !l.Arrive? && LocalInv(s.reqs[l.r])
    ensures Next(s, l).reqs[l.r] == Moved(s.shared, s.mu, s.reqs[l.r], l).q
  {
    if l.FbsCancelVictim? {
      assert s.reqs[l.r].priority == Fbs;
      assert s.reqs[l.r].pc.victim != Some(l.r);
    }
  }

  lemma {:induction false} ContextRun(run: Run, i: nat)
    requires IsRun(run) && i < |run.states|
    ensures CapturedInv(run.states[i]) && forall r :: r in run.states[i].reqs ==> ContextInv(run.states[i].reqs[r])
  {
    if i > 0 {
      ContextRun(run, i - 1);
      RunInv(run, i - 1);
      ContextAll(run.states[i - 1], run.labels[i - 1]);
    }
  }

  lemma ContextAll(s: Slot, l: Label)
    requires CapturedInv(s) && Enabled(s, l)
    requires forall x :: x in s.reqs ==> LocalInv(s.reqs[x]) && ContextInv(s.reqs[x])
    ensures CapturedInv(Next(s, l)) && forall r :: r in Next(s, l).reqs ==> ContextInv(Next(s, l).reqs[r])
  {
    CapturedStep(s, l);
    forall r | r in Next(s, l).reqs ensures ContextInv(Next(s, l).reqs[r]) {
      ContextStep(s, l, r);
    }
  }

  /** Only probes are ever deferred, and a probe that gives the token back has had its
      context ended, so none outlives its use of the slot. */
  lemma ContextsEnd(run: Run, i: nat, r: ReqId)
    requires IsRun(run) && i < |run.states| && r in run.states[i].reqs
    ensures var q := run.states[i].reqs[r];
      && (q.ctx == Deferred ==> q.priority == Admin)
      && (q.priority == Admin && q.acquires == 1 && q.pc in {Putting, Done} ==> q.ctx != Live)
  {
    ContextRun(run, i);
  }

  /** A step the code itself takes, as opposed to an arrival, a caller giving up,
      or the device exchange finishing. */
  predicate Internal(l: Label) {
    !l.Arrive? && !l.CallerCancel? && !l.FinishError? && !l.FinishResponse? && !l.CloseBody?
  }

  function OwnStep(r: ReqId, pc: Pc): Label {
    match pc
    case AdminArrived => AdminBegin(r)
    case AdminLocking => AdminLock(r)
    case AdminLocked => AdminCheckWaiters(r)
    case AdminChecked => AdminTryGate(r)
    case AdminTook => AdminRegister(r)
    case AdminRegistered => AdminUnlock(r)
    case AdminRefused => AdminRefuse(r)
    case FbsArrived => FbsAnnounce(r)
    case FbsCancelling(_) => FbsCancelVictim(r)
    case FbsWaiting => FbsTake(r)
    case FbsTook => FbsWithdraw(r)
    case FbsGaveUp => FbsWithdraw(r)
    case Clearing => ReleaseClear(r)
    case Cancelling => ReleaseCancel(r)
    case Putting => ReleasePut(r)
    case _ => FinishError(r)
  }

  /** What a request waits for: the mutex, a token, or room for its token. */
  predicate NeedsMutex(pc: Pc) {
    pc.AdminLocking? || pc.FbsArrived? || pc.FbsTook? || pc.FbsGaveUp? || pc.Clearing?
  }

  lemma OwnStepEnabled(d: Shared, mu: Option<ReqId>, q: Request, r: ReqId)
    requires !q.pc.Calling? && !q.pc.BodyOpen? && !q.pc.Done?
    requires NeedsMutex(q.pc) ==> mu == None
    requires q.pc.FbsWaiting? ==> d.gate > 0
    requires q.pc.Putting? ==> d.gate < GATE_CAPACITY
    ensures var l := OwnStep(r, q.pc); l.r == r && Internal(l) && CanMove(d, mu, q, l)
  {
  }

  /** The mutex and the channel cannot block each other: unless a request is
      talking to the device, some unfinished request can take its next step. */
  lemma NoDeadlock(run: Run, i: nat, r: ReqId) returns (l: Label)
    requires IsRun(run) && i < |run.states|
    requires r in run.states[i].reqs && run.states[i].reqs[r].pc != Done
    requires forall x :: x in run.states[i].reqs ==> !run.states[i].reqs[x].pc.Calling? && !run.states[i].reqs[x].pc.BodyOpen?
    ensures Internal(l) && Enabled(run.states[i], l)
  {
    RunInv(run, i);
    var s := run.states[i];
    var mover := Mover(s, r);
    OwnStepEnabled(s.shared, s.mu, s.reqs[mover], mover);
    l := OwnStep(mover, s.reqs[mover].pc);
  }

  /** Whose turn it is: the mutex holder's, else the token owner's if `r` waits for the
      token, else that of `r`. */
  lemma Mover(s: Slot, r: ReqId) returns (m: ReqId)
    requires TokenInv(s) && MutexInv(s) && r in s.reqs && s.reqs[r].pc != Done
    requires forall x :: x in s.reqs ==> !s.reqs[x].pc.Calling? && !s.reqs[x].pc.BodyOpen?
    ensures m in s.reqs && !s.reqs[m].pc.Done?
    ensures NeedsMutex(s.reqs[m].pc) ==> s.mu == None
    ensures s.reqs[m].pc.FbsWaiting? ==> s.shared.gate > 0
    ensures s.reqs[m].pc.Putting? ==> s.shared.gate < GATE_CAPACITY
  {
    m := r;
    if s.mu.Some? {
      m := s.mu.value;
      assert InsideLock(s.reqs[m].pc);
    } else if s.reqs[r].pc == FbsWaiting && s.shared.gate == 0 {
      assert Owners(s) != {};
      m :| m in Owners(s);
    }
    assert s.reqs[m].pc.Putting? ==> m in Owners(s);
  }
}
