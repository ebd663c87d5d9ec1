/**
  The digest session of one device under every interleaving of requests.

  `state.session` and the session object it points to have no lock: only the
  request that owns the slot touches them. The request loop is therefore cut into
  single reads and writes, so that two requests inside it at once would lose
  updates, and run on top of the slot protocol of module RequestSlot.
 */
module SessionSystem {
  import opened Optional
  import opened AuthLoop
  import Slot = RequestSlot

  type ReqId = Slot.ReqId

  /** A session object; `issued` is the history of nonce counts it put into headers. */
  datatype DigestSession = DigestSession(core: Session, issued: seq<nat>)

  /** Where a request that owns the slot is in doAuthenticatedGETLocked. `Plain` stands
      for the whole of doUnauthenticatedGET, which leaves the session alone. */
  datatype Rpc =
    | Plain
    | Top(l: Local)
    | Choosing(l: Local)
    | Checking(l: Local, sid: nat)
    | Loading(l: Local, sid: nat)
    | Storing(l: Local, sid: nat, count: nat)
    | Naming(l: Local, sid: nat)
    | Exhausted(l: Local)
    | Sending(l: Local, authenticated: bool)
    | Renewing(l: Local)
    | Pausing(l: Local)
    | Finished(end: End)

  /** `heap[i]` is the i-th session object made for the device, `session` the pointer. */
  datatype Shared = Shared(heap: seq<DigestSession>, session: Option<nat>)

  datatype System = System(slot: Slot.Slot, shared: Shared, rpc: map<ReqId, Rpc>)

  /** What the environment contributes to a step of the loop. */
  datatype Event = Event(now: int, uriOk: bool, answer: Answer, created: int, waitOk: bool)

  datatype Label = SlotStep(l: Slot.Label, password: bool) | RpcStep(r: ReqId, e: Event)

  const Init := System(Slot.Init, Shared([], None), map[])

  ghost predicate Pointed(d: Shared) {
    d.session.Some? ==> d.session.value < |d.heap|
  }

  ghost predicate CanMove(d: Shared, p: Rpc) {
    && !p.Plain? && !p.Finished?
    && Pointed(d)
    && (p.Checking? || p.Loading? || p.Storing? || p.Naming? ==> p.sid < |d.heap|)
  }

  /** One read or write of the loop. */
  ghost function Moved(d: Shared, p: Rpc, e: Event): (Shared, Rpc)
    requires CanMove(d, p)
  {
    match p
    case Top(l) =>
      if l.attempt >= MAX_AUTHENTICATION_ATTEMPTS then (d, Finished(RetryLimit))
      else if d.session.Some? && Expired(d.heap[d.session.value].core, e.now) then (d.(session := None), Choosing(l))
      else (d, Choosing(l))
    case Choosing(l) =>
      if d.session == None then (d, Sending(l, false))
      else if !e.uriOk then (d, Finished(Failed))
      else (d, Checking(l, d.session.value))
    case Checking(l, sid) =>
      (d, if d.heap[sid].core.nonceCount >= MAX_DIGEST_NONCE_COUNT then Exhausted(l) else Loading(l, sid))
    case Loading(l, sid) => (d, Storing(l, sid, d.heap[sid].core.nonceCount))
    case Storing(l, sid, count) =>
      (d.(heap := d.heap[sid := d.heap[sid].(core := d.heap[sid].core.(nonceCount := count + 1))]), Naming(l, sid))
    case Naming(l, sid) =>
      (d.(heap := d.heap[sid := d.heap[sid].(issued := d.heap[sid].issued + [d.heap[sid].core.nonceCount])]),
       Sending(l, true))
    case Exhausted(_) => (d.(session := None), Finished(NonceCountExhausted))
    case Sending(l, authenticated) =>
      (match Judge(l, authenticated, e.answer)
       case Respond(status, drop) => (if drop then d.(session := None) else d, Finished(Response(status)))
       case Fail(drop) => (if drop then d.(session := None) else d, Finished(Failed))
       case Renew(next) => (d, Renewing(next))
       case Pause(next) => (d, Pausing(next)))
    case Renewing(l) =>
      (Shared(d.heap + [DigestSession(Session(0, e.created), [])], Some(|d.heap|)), Top(l))
    case Pausing(l) => (d, if e.waitOk then Top(l) else Finished(Failed))
  }

  /** The exchange has ended, with a response or without. */
  predicate Over(p: Rpc, response: bool) {
    p.Plain? || (p.Finished? && (p.end.Response? <==> response))
  }

  ghost predicate Enabled(s: System, step: Label) {
    match step
    case SlotStep(l, _) =>
      && Slot.Enabled(s.slot, l)
      && (l.FinishError? || l.FinishResponse? ==>
            l.r in s.rpc && Over(s.rpc[l.r], l.FinishResponse?))
    case RpcStep(r, _) =>
      Slot.At(s.slot, r, Slot.Calling) && r in s.rpc && CanMove(s.shared, s.rpc[r])
  }

  ghost predicate Enters(s: System, l: Slot.Label)
    requires Slot.Enabled(s.slot, l)
  {
    Slot.At(Slot.Next(s.slot, l), l.r, Slot.Calling) && !Slot.At(s.slot, l.r, Slot.Calling)
  }

  ghost function Next(s: System, step: Label): System
    requires Enabled(s, step)
  {
    match step
    case SlotStep(l, password) =>
      System(Slot.Next(s.slot, l), s.shared,
             if Enters(s, l) then s.rpc[l.r := if password then Top(Start) else Plain] else s.rpc)
    case RpcStep(r, e) =>
      var m := Moved(s.shared, s.rpc[r], e);
      System(s.slot, m.0, s.rpc[r := m.1])
  }

  datatype Run = Run(states: seq<System>, labels: seq<Label>)

  ghost predicate IsRun(run: Run) {
    && |run.states| == |run.labels| + 1
    && run.states[0] == Init
    && forall i :: 0 <= i < |run.labels| ==>
         Enabled(run.states[i], run.labels[i]) && run.states[i + 1] == Next(run.states[i], run.labels[i])
  }

  // -------------------------------------------------------------- invariant

  /** 1, 2, 3, ... without repetition or gap. */
  ghost predicate Consecutive(counts: seq<nat>) {
    forall k :: 0 <= k < |counts| ==> counts[k] == k + 1
  }

  /** Counts are issued one by one; a session being named is one count ahead. */
  ghost predicate SessionInv(x: DigestSession, ahead: bool) {
    && Consecutive(x.issued)
    && x.core.nonceCount == |x.issued| + (if ahead then 1 else 0)
    && x.core.nonceCount <= MAX_DIGEST_NONCE_COUNT
  }

  ghost predicate HeapInv(d: Shared, p: Rpc) {
    && Pointed(d)
    && forall i :: 0 <= i < |d.heap| ==> SessionInv(d.heap[i], p.Naming? && p.sid == i)
  }

  /** What the owner of the slot knows at each point of the loop. */
  ghost predicate RpcInv(d: Shared, p: Rpc)
    requires Pointed(d)
  {
    && (p.Choosing? && d.session.Some? ==> d.heap[d.session.value].core.nonceCount < MAX_DIGEST_NONCE_COUNT)
    && (p.Checking? || p.Loading? || p.Storing? ==>
          p.sid < |d.heap| && d.heap[p.sid].core.nonceCount < MAX_DIGEST_NONCE_COUNT)
    && (p.Storing? ==> p.count == d.heap[p.sid].core.nonceCount)
    && (p.Naming? ==> p.sid < |d.heap|)
    && !p.Exhausted?
  }

  ghost predicate Inv(s: System) {
    Slot.SlotInv(s.slot) && LoopInv(s)
  }

  ghost predicate LoopInv(s: System) {
    && (forall r :: Slot.At(s.slot, r, Slot.Calling) ==>
          r in s.rpc && HeapInv(s.shared, s.rpc[r]) && RpcInv(s.shared, s.rpc[r]))
    && ((forall r :: !Slot.At(s.slot, r, Slot.Calling)) ==> HeapInv(s.shared, Plain))
  }

  lemma LookKeeps(d: Shared, p: Rpc, e: Event)
    requires CanMove(d, p) && HeapInv(d, p) && RpcInv(d, p)
    requires p.Top? || p.Choosing? || p.Checking? || p.Loading? || p.Exhausted?
    ensures var m := Moved(d, p, e); HeapInv(m.0, m.1) && RpcInv(m.0, m.1)
  {
  }

  lemma CountKeeps(d: Shared, p: Rpc, e: Event)
    requires CanMove(d, p) && HeapInv(d, p) && RpcInv(d, p)
    requires p.Storing? || p.Naming?
    ensures var m := Moved(d, p, e); HeapInv(m.0, m.1) && RpcInv(m.0, m.1)
  {
  }

  lemma SendKeeps(d: Shared, p: Rpc, e: Event)
    requires CanMove(d, p) && HeapInv(d, p) && RpcInv(d, p)
    requires p.Sending?
    ensures var m := Moved(d, p, e); HeapInv(m.0, m.1) && RpcInv(m.0, m.1)
  {
  }

  lemma EndKeeps(d: Shared, p: Rpc, e: Event)
    requires CanMove(d, p) && HeapInv(d, p) && RpcInv(d, p)
    requires p.Renewing? || p.Pausing?
    ensures var m := Moved(d, p, e); HeapInv(m.0, m.1) && RpcInv(m.0, m.1)
  {
  }

  lemma MoveKeeps(d: Shared, p: Rpc, e: Event)
    requires CanMove(d, p) && HeapInv(d, p) && RpcInv(d, p)
    ensures var m := Moved(d, p, e); HeapInv(m.0, m.1) && RpcInv(m.0, m.1)
  {
    if p.Storing? || p.Naming? {
      CountKeeps(d, p, e);
    } else if p.Sending? {
      SendKeeps(d, p, e);
    } else if p.Renewing? || p.Pausing? {
      EndKeeps(d, p, e);
    } else {
      LookKeeps(d, p, e);
    }
  }

  /** Two requests inside the loop are the same request: they both owe the token. */
  lemma SoleCaller(s: Slot.Slot, a: ReqId, b: ReqId)
    requires Slot.SlotInv(s) && Slot.At(s, a, Slot.Calling) && (Slot.At(s, b, Slot.Calling) || b in Slot.Owners(s))
    ensures a == b
  {
    Slot.SoleOwner(s, a, b);
  }

  lemma RpcKeeps(s: System, r: ReqId, e: Event)
    requires Inv(s) && Enabled(s, RpcStep(r, e))
    ensures Inv(Next(s, RpcStep(r, e)))
  {
    MoveKeeps(s.shared, s.rpc[r], e);
    forall x | Slot.At(s.slot, x, Slot.Calling) ensures x == r {
      SoleCaller(s.slot, r, x);
    }
  }

  lemma MoveEnters(d: Slot.Shared, mu: Option<ReqId>, q: Slot.Request, l: Slot.Label)
    requires Slot.CanMove(d, mu, q, l)
    ensures Slot.Moved(d, mu, q, l).q.pc == Slot.Calling ==> Slot.Owes(q.pc)
    ensures Slot.Moved(d, mu, q, l).q.pc != Slot.Calling && q.pc == Slot.Calling ==> l.FinishError? || l.FinishResponse?
  {
  }

  /** Entering the loop means leaving acquireAdmin or acquireFBS with the token. */
  lemma EntersOwning(s: Slot.Slot, l: Slot.Label)
    requires Slot.Enabled(s, l) && Slot.At(Slot.Next(s, l), l.r, Slot.Calling)
    ensures l.r in Slot.Owners(s)
  {
    if !l.Arrive? {
      MoveEnters(s.shared, s.mu, s.reqs[l.r], l);
      Slot.OwnMove(s, l);
    }
  }

  /** A step leaves all requests but its own where they were. */
  lemma OthersStay(s: Slot.Slot, l: Slot.Label, x: ReqId)
    requires Slot.Enabled(s, l) && x != l.r
    ensures Slot.At(s, x, Slot.Calling) <==> Slot.At(Slot.Next(s, l), x, Slot.Calling)
  {
    Slot.MovesOne(s, l);
  }

  ghost predicate InLoop(s: System, r: ReqId) { Slot.At(s.slot, r, Slot.Calling) }

  /** A step of the slot protocol by `r` leaves everybody else in or out of the loop. */
  lemma LoopFrame(s: System, t: System, r: ReqId)
    requires LoopInv(s) && t.shared == s.shared
    requires forall x :: x != r ==> (InLoop(s, x) <==> InLoop(t, x))
    requires forall x :: x != r && x in s.rpc ==> x in t.rpc && t.rpc[x] == s.rpc[x]
    requires InLoop(t, r) && !InLoop(s, r) ==> r in t.rpc && (t.rpc[r].Top? || t.rpc[r].Plain?)
    requires InLoop(t, r) && !InLoop(s, r) ==> forall y :: !InLoop(s, y)
    requires InLoop(t, r) && InLoop(s, r) ==> t.rpc == s.rpc
    requires !InLoop(t, r) && InLoop(s, r) ==> r in s.rpc && (s.rpc[r].Plain? || s.rpc[r].Finished?)
    ensures LoopInv(t)
  {
    assert forall x :: Slot.At(s.slot, x, Slot.Calling) ==> InLoop(s, x);
    assert forall x :: Slot.At(t.slot, x, Slot.Calling) ==> InLoop(t, x);
    if forall x :: !Slot.At(t.slot, x, Slot.Calling) {
      if InLoop(s, r) {
        assert HeapInv(s.shared, s.rpc[r]);
      } else {
        assert forall x :: InLoop(s, x) ==> InLoop(t, x);
      }
    }
  }

  lemma NobodyInside(s: System, r: ReqId)
    requires Slot.SlotInv(s.slot) && r in Slot.Owners(s.slot) && !InLoop(s, r)
    ensures forall y :: !InLoop(s, y)
  {
    forall y ensures !InLoop(s, y) {
      if InLoop(s, y) { SoleCaller(s.slot, y, r); }
    }
  }

  lemma LeavesFinished(s: System, l: Slot.Label)
    requires Enabled(s, SlotStep(l, false))
    requires InLoop(s, l.r) && !Slot.At(Slot.Next(s.slot, l), l.r, Slot.Calling)
    ensures l.FinishError? || l.FinishResponse?
  {
    if !l.Arrive? {
      MoveEnters(s.slot.shared, s.slot.mu, s.slot.reqs[l.r], l);
      Slot.OwnMove(s.slot, l);
    }
  }

  /** What a step of the slot protocol does to the positions in the loop. */
  lemma PositionsStay(s: System, l: Slot.Label, password: bool)
    requires Enabled(s, SlotStep(l, password))
    ensures var t := Next(s, SlotStep(l, password));
      && t.shared == s.shared
      && (forall x :: x != l.r && x in s.rpc ==> x in t.rpc && t.rpc[x] == s.rpc[x])
      && (InLoop(t, l.r) && !InLoop(s, l.r) ==> l.r in t.rpc && (t.rpc[l.r].Top? || t.rpc[l.r].Plain?))
      && (InLoop(t, l.r) && InLoop(s, l.r) ==> t.rpc == s.rpc)
  {
  }

  lemma OthersInLoop(s: System, l: Slot.Label, password: bool)
    requires Enabled(s, SlotStep(l, password))
    ensures forall x :: x != l.r ==> (InLoop(s, x) <==> InLoop(Next(s, SlotStep(l, password)), x))
  {
    forall x | x != l.r ensures InLoop(s, x) <==> InLoop(Next(s, SlotStep(l, password)), x) {
      OthersStay(s.slot, l, x);
    }
  }

  lemma EntersAlone(s: System, l: Slot.Label, password: bool)
    requires Slot.SlotInv(s.slot) && Enabled(s, SlotStep(l, password))
    requires InLoop(Next(s, SlotStep(l, password)), l.r) && !InLoop(s, l.r)
    ensures forall y :: !InLoop(s, y)
  {
    EntersOwning(s.slot, l);
    NobodyInside(s, l.r);
  }

  lemma LeavesOver(s: System, l: Slot.Label, password: bool)
    requires Enabled(s, SlotStep(l, password)) && InLoop(s, l.r) && !InLoop(Next(s, SlotStep(l, password)), l.r)
    ensures l.r in s.rpc && (s.rpc[l.r].Plain? || s.rpc[l.r].Finished?)
  {
    LeavesFinished(s, l);
  }

  lemma SlotKeeps(s: System, l: Slot.Label, password: bool)
    requires Slot.SlotInv(s.slot) && LoopInv(s) && Enabled(s, SlotStep(l, password))
    ensures LoopInv(Next(s, SlotStep(l, password)))
  {
    var t := Next(s, SlotStep(l, password));
    PositionsStay(s, l, password);
    OthersInLoop(s, l, password);
    if InLoop(t, l.r) && !InLoop(s, l.r) {
      EntersAlone(s, l, password);
    }
    if !InLoop(t, l.r) && InLoop(s, l.r) {
      LeavesOver(s, l, password);
    }
    LoopFrame(s, t, l.r);
  }

  /** Whoever gets through to the device starts the authenticated loop at its top exactly when
      the tool has a password. */
  lemma EntersAtTop(s: System, l: Slot.Label, password: bool)
    requires Enabled(s, SlotStep(l, password)) && InLoop(Next(s, SlotStep(l, password)), l.r) && !InLoop(s, l.r)
    ensures l.r in Next(s, SlotStep(l, password)).rpc
    ensures Next(s, SlotStep(l, password)).rpc[l.r] == if password then Top(Local(0, 0, false)) else Plain
  {
  }

  /** A call that has ended hands over a response exactly when it has one, and an error
      exactly when it has none. */
  lemma EndHandedOver(s: System, r: ReqId, password: bool)
    requires InLoop(s, r) && r in s.rpc && s.rpc[r].Finished?
    ensures Enabled(s, SlotStep(Slot.FinishResponse(r), password)) <==> s.rpc[r].end.Response?
    ensures Enabled(s, SlotStep(Slot.FinishError(r), password)) <==> !s.rpc[r].end.Response?
  {
  }

  // ------------------------------------------------------- the main results

  lemma {:induction false} RunInv(run: Run, i: nat)
    requires IsRun(run) && i < |run.states|
    ensures Inv(run.states[i])
  {
    if i == 0 {
      assert Slot.Owners(Slot.Init) == {} && Slot.Announcers(Slot.Init) == {};
    } else {
      RunInv(run, i - 1);
      match run.labels[i - 1]
      case SlotStep(l, password) =>
        Slot.SlotStep(run.states[i - 1].slot, l);
        SlotKeeps(run.states[i - 1], l, password);
      case RpcStep(r, e) => RpcKeeps(run.states[i - 1], r, e);
    }
  }

  /** In every reachable state the counts that each session has put into headers are
      exactly 1, 2, 3, ... up to at most 30000, and no request has taken the
      "nonce count exhausted" exit. */
  lemma NonceCountsConsecutive(run: Run, i: nat, sid: nat)
    requires IsRun(run) && i < |run.states| && sid < |run.states[i].shared.heap|
    ensures var x := run.states[i].shared.heap[sid];
      && Consecutive(x.issued)
      && |x.issued| <= MAX_DIGEST_NONCE_COUNT
      && |x.issued| <= x.core.nonceCount <= |x.issued| + 1
    ensures forall r :: Slot.At(run.states[i].slot, r, Slot.Calling) ==>
      r in run.states[i].rpc && !run.states[i].rpc[r].Exhausted?
  {
    RunInv(run, i);
    var s := run.states[i];
    if r :| Slot.At(s.slot, r, Slot.Calling) {
      assert HeapInv(s.shared, s.rpc[r]);
    }
  }

  /** Every header carries the next count of its session: when a request puts a count
      into a header, that count is one more than the number of headers the session
      has already signed, in whatever order requests came. */
  lemma HeaderCarriesNextCount(run: Run, i: nat, r: ReqId)
    requires IsRun(run) && i < |run.labels|
    requires run.labels[i].RpcStep? && run.labels[i].r == r
    requires run.states[i].rpc[r].Naming?
    ensures var sid := run.states[i].rpc[r].sid;
      && sid < |run.states[i].shared.heap| && sid < |run.states[i + 1].shared.heap|
      && var before := run.states[i].shared.heap[sid].issued;
      run.states[i + 1].shared.heap[sid].issued == before + [|before| + 1]
  {
    RunInv(run, i);
    var s := run.states[i];
    assert HeapInv(s.shared, s.rpc[r]) && RpcInv(s.shared, s.rpc[r]);
  }
}
