/**
  The request loops of the Shelly client, run by the owner of the request slot.
  The device, the clock and the request context are inputs: attempt `i` of a call
  meets `env[i]`.
 */
module AuthLoop {
  import opened Optional

  const MAX_AUTHENTICATION_ATTEMPTS: nat := 6
  const MAX_STATUS_ATTEMPTS: nat := 2
  const MAX_DIGEST_NONCE_COUNT: nat := 30000

  /** Seconds; the 55 minutes after which a digest session is given up. */
  const DIGEST_SESSION_MAX_AGE: nat := 3300

  const UNAUTHORIZED: int := 401
  const TOO_MANY_REQUESTS: int := 429

  /** What the loop uses of a digest session. */
  datatype Session = Session(nonceCount: nat, createdAt: int)

  /** The WWW-Authenticate header of a 401: missing, refused by newDigestSession, or usable. */
  datatype Challenge = Absent | Malformed | Usable

  datatype Answer = SendFailed | Answered(status: int, challenge: Challenge)

  /** What one attempt meets: the clock at the top of the loop, whether the request
      URL parses, the device's answer, the clock when a session is built from that
      answer, and whether the throttle pause ends before the context does. */
  datatype Attempt = Attempt(now: int, uriOk: bool, answer: Answer, created: int, waitOk: bool)

  predicate Expired(s: Session, now: int) {
    now - s.createdAt >= DIGEST_SESSION_MAX_AGE || s.nonceCount >= MAX_DIGEST_NONCE_COUNT
  }

  /** The local variables of the loop. */
  datatype Local = Local(attempt: nat, failures: nat, throttled: bool)

  const Start := Local(0, 0, false)

  /** What the loop does with an answer. `Renew` builds a session and goes on,
      `Pause` waits and goes on; `drop` says that state.session becomes nil. */
  datatype Verdict =
    | Respond(status: int, drop: bool)
    | Fail(drop: bool)
    | Renew(next: Local)
    | Pause(next: Local)

  function Judge(l: Local, authenticated: bool, a: Answer): Verdict {
    match a
    case SendFailed => Fail(false)
    case Answered(status, challenge) =>
      if status == UNAUTHORIZED then
        var failures := if authenticated then l.failures + 1 else l.failures;
        if authenticated && failures > 1 then Respond(status, true)
        else if challenge != Usable then Fail(true)
        else Renew(l.(attempt := l.attempt + 1, failures := failures))
      else if status == TOO_MANY_REQUESTS then
        if l.throttled then Respond(status, false)
        else Pause(l.(attempt := l.attempt + 1, throttled := true))
      else
        Respond(status, false)
  }

  datatype End = Response(status: int) | Failed | NonceCountExhausted | RetryLimit

  /** `sends` is the number of HTTP requests issued. */
  datatype Outcome = Outcome(sends: nat, session: Option<Session>, end: End)

  function KeepUnlessExpired(session: Option<Session>, now: int): Option<Session> {
    if session.Some? && Expired(session.value, now) then None else session
  }

  function Used(kept: Option<Session>): Option<Session> {
    if kept.Some? then Some(kept.value.(nonceCount := kept.value.nonceCount + 1)) else None
  }

  /** One authenticated call from the loop position `l`, as a function of what it meets. */
  function AuthRun(l: Local, session: Option<Session>, env: seq<Attempt>): (o: Outcome)
    requires |env| == MAX_AUTHENTICATION_ATTEMPTS
    decreases MAX_AUTHENTICATION_ATTEMPTS - l.attempt
  {
    if l.attempt >= MAX_AUTHENTICATION_ATTEMPTS then Outcome(0, session, RetryLimit)
    else
      var e := env[l.attempt];
      var kept := KeepUnlessExpired(session, e.now);
      if kept.Some? && !e.uriOk then Outcome(0, kept, Failed)
      else if kept.Some? && kept.value.nonceCount >= MAX_DIGEST_NONCE_COUNT then
        Outcome(0, None, NonceCountExhausted)
      else
        var used := Used(kept);
        match Judge(l, kept.Some?, e.answer)
        case Respond(status, drop) => Outcome(1, if drop then None else used, Response(status))
        case Fail(drop) => Outcome(1, if drop then None else used, Failed)
        case Renew(next) => Again(AuthRun(next, Some(Session(0, e.created)), env))
        case Pause(next) => if e.waitOk then Again(AuthRun(next, used, env)) else Outcome(1, used, Failed)
  }

  function Again(o: Outcome): Outcome { o.(sends := o.sends + 1) }

  /** The rest of a call once its request has been made, `used` being the session by then. */
  function AfterSend(l: Local, authenticated: bool, used: Option<Session>, env: seq<Attempt>): Outcome
    requires l.attempt < |env| == MAX_AUTHENTICATION_ATTEMPTS
  {
    match Judge(l, authenticated, env[l.attempt].answer)
    case Respond(status, drop) => Outcome(1, if drop then None else used, Response(status))
    case Fail(drop) => Outcome(1, if drop then None else used, Failed)
    case Renew(next) => Again(AuthRun(next, Some(Session(0, env[l.attempt].created)), env))
    case Pause(next) => if env[l.attempt].waitOk then Again(AuthRun(next, used, env)) else Outcome(1, used, Failed)
  }

  /** The session, if any, is used by this attempt rather than given up. */
  predicate Fit(session: Option<Session>, a: Attempt) {
    session.Some? ==> !Expired(session.value, a.now)
  }

  /** The loop, one attempt at a time. */
  lemma OneAttempt(l: Local, session: Option<Session>, env: seq<Attempt>)
    requires l.attempt < |env| == MAX_AUTHENTICATION_ATTEMPTS
    ensures var kept := KeepUnlessExpired(session, env[l.attempt].now);
      AuthRun(l, session, env) ==
        if kept.Some? && !env[l.attempt].uriOk then Outcome(0, kept, Failed)
        else AfterSend(l, kept.Some?, Used(kept), env)
  {
  }

  lemma FitRuns(l: Local, session: Option<Session>, env: seq<Attempt>)
    requires l.attempt < |env| == MAX_AUTHENTICATION_ATTEMPTS && Fit(session, env[l.attempt])
    requires session.Some? ==> env[l.attempt].uriOk
    ensures AuthRun(l, session, env) == AfterSend(l, session.Some?, Used(session), env)
  {
  }

  /** doUnauthenticatedGET: one repetition after a 429. */
  function PlainRun(attempt: nat, env: seq<Attempt>): Outcome
    requires |env| >= 2
    decreases 2 - attempt
  {
    if attempt >= 2 then Outcome(0, None, RetryLimit)
    else
      match env[attempt].answer
      case SendFailed => Outcome(1, None, Failed)
      case Answered(status, _) =>
        if status != TOO_MANY_REQUESTS || attempt == 1 then Outcome(1, None, Response(status))
        else if !env[attempt].waitOk then Outcome(1, None, Failed)
        else Again(PlainRun(attempt + 1, env))
  }

  /** A call that was going to end as `first` has made `sends` requests and still does `rest`. */
  ghost predicate Continues(first: Outcome, sends: nat, rest: Outcome) {
    first == Outcome(sends + rest.sends, rest.session, rest.end)
  }

  /** The part of `deviceAuthState` the loops update in place. */
  class SessionHolder {
    var session: Option<Session>

    constructor ()
      ensures session == None
    {
      session := None;
    }

    /** The session check and the header at the top of the loop; `ok` is false when the
        request URL does not parse. */
    method Authorize(e: Attempt) returns (authenticated: bool, ok: bool)
      modifies this
      ensures var kept := KeepUnlessExpired(old(session), e.now);
        && authenticated == kept.Some? && ok == (kept.Some? ==> e.uriOk)
        && session == if ok then Used(kept) else kept
    {
      if session.Some? && Expired(session.value, e.now) {
        session := None;
      }
      authenticated, ok := session.Some?, true;
      if authenticated {
        if !e.uriOk {
          return authenticated, false;
        }
        if session.value.nonceCount >= MAX_DIGEST_NONCE_COUNT {
          assert false; // the check above has already dropped such a session
        }
        session := Some(session.value.(nonceCount := session.value.nonceCount + 1));
      }
    }

    /** The switch on the answer; `end` is None when the loop goes on. */
    method Receive(l: Local, authenticated: bool, e: Attempt) returns (end: Option<End>, failures: nat, throttled: bool)
      modifies this
      ensures match Judge(l, authenticated, e.answer)
        case Respond(status, drop) => end == Some(Response(status)) && session == if drop then None else old(session)
        case Fail(drop) => end == Some(Failed) && session == if drop then None else old(session)
        case Renew(next) =>
          end == None && next == Local(l.attempt + 1, failures, throttled) && session == Some(Session(0, e.created))
        case Pause(next) =>
          && end == (if e.waitOk then None else Some(Failed)) && session == old(session)
          && (e.waitOk ==> next == Local(l.attempt + 1, failures, throttled))
    {
      end, failures, throttled := None, l.failures, l.throttled;
      if e.answer.SendFailed? {
        return Some(Failed), failures, throttled;
      }
      if e.answer.status == UNAUTHORIZED {
        if authenticated {
          failures := failures + 1;
          if failures > 1 {
            session := None;
            return Some(Response(e.answer.status)), failures, throttled;
          }
        }
        if e.answer.challenge != Usable {
          session := None;
          return Some(Failed), failures, throttled;
        }
        session := Some(Session(0, e.created));
      } else if e.answer.status == TOO_MANY_REQUESTS {
        if throttled {
          return Some(Response(e.answer.status)), failures, throttled;
        }
        if !e.waitOk {
          return Some(Failed), failures, throttled;
        }
        throttled := true;
      } else {
        return Some(Response(e.answer.status)), failures, throttled;
      }
    }

    method DoAuthenticatedGet(env: seq<Attempt>) returns (sends: nat, end: End)
      requires |env| == MAX_AUTHENTICATION_ATTEMPTS
      modifies this
      ensures Outcome(sends, session, end) == AuthRun(Start, old(session), env)
    {
      var attempt, failures, throttled := 0, 0, false;
      ghost var first := AuthRun(Start, session, env);
      sends := 0;
      while attempt < MAX_AUTHENTICATION_ATTEMPTS
        invariant attempt <= MAX_AUTHENTICATION_ATTEMPTS
        invariant Continues(first, sends, AuthRun(Local(attempt, failures, throttled), session, env))
      {
        var e, l := env[attempt], Local(attempt, failures, throttled);
        OneAttempt(l, session, env);
        var authenticated, ok := Authorize(e);
        if !ok {
          return sends, Failed;
        }
        sends := sends + 1;
        var over;
        over, failures, throttled := Receive(l, authenticated, e);
        if over.Some? {
          return sends, over.value;
        }
        attempt := attempt + 1;
      }
      end := RetryLimit;
    }
  }

  method DoUnauthenticatedGet(env: seq<Attempt>) returns (sends: nat, end: End)
    requires |env| >= 2
    ensures Outcome(sends, None, end) == PlainRun(0, env)
  {
    sends := 0;
    for attempt := 0 to 2
      invariant PlainRun(0, env) == var rest := PlainRun(attempt, env); rest.(sends := sends + rest.sends)
    {
      sends := sends + 1;
      if env[attempt].answer.SendFailed? {
        return sends, Failed;
      }
      if env[attempt].answer.status != TOO_MANY_REQUESTS || attempt == 1 {
        return sends, Response(env[attempt].answer.status);
      }
      if !env[attempt].waitOk {
        return sends, Failed;
      }
    }
    end := RetryLimit;
  }

  // -------------------------------------------------------- bounds on the sends

  /** The clock readings of the call never run backwards and all lie in a span of
      `span` seconds starting at `begin`. */
  ghost predicate WithinSpan(env: seq<Attempt>, begin: int, span: nat) {
    && |env| == MAX_AUTHENTICATION_ATTEMPTS
    && (forall i :: 0 <= i < |env| ==> begin <= env[i].now <= env[i].created <= begin + span)
    && (forall i, j :: 0 <= i < j < |env| ==> env[i].created <= env[j].now)
  }

  /** How many sends are still possible from a loop position; `renewed` says that the
      session was created inside this call, and `expiries` bounds how often such a
      session can still be found too old. */
  function Budget(l: Local, renewed: bool, expiries: nat): nat {
    1 + (if l.throttled then 0 else 1) + (if l.failures > 0 then 0 else 1) + (if renewed then 0 else 1) + expiries
  }

  ghost predicate InBudget(o: Outcome, l: Local, budget: int) {
    && o.end != NonceCountExhausted
    && o.sends <= budget
    && (o.end == RetryLimit ==> o.sends == MAX_AUTHENTICATION_ATTEMPTS - l.attempt && o.sends < budget)
  }

  /** The session found at `l` if it was created in this call at `since`. */
  ghost predicate RenewedAt(l: Local, session: Option<Session>, since: int) {
    session.Some? && session.value.createdAt == since && session.value.nonceCount <= l.attempt
  }

  /** Building a session or pausing costs at least one unit of budget; a renewed session
      found too old costs one of the expiries. */
  lemma StepBudget(l: Local, authenticated: bool, a: Answer, renewed: bool, expiries: nat)
    requires renewed && !authenticated ==> expiries > 0
    ensures var left := if renewed && !authenticated then expiries - 1 else expiries;
      match Judge(l, authenticated, a)
      case Renew(next) => next.attempt == l.attempt + 1 && Budget(next, true, left) < Budget(l, renewed, expiries)
      case Pause(next) => next.attempt == l.attempt + 1 && Budget(next, renewed && authenticated, left) < Budget(l, renewed, expiries)
      case _ => true
  {
  }

  /** A session created in the call is given up only for its age. */
  lemma TooOld(l: Local, session: Option<Session>, since: int, now: int)
    requires RenewedAt(l, session, since) && l.attempt < MAX_AUTHENTICATION_ATTEMPTS
    requires KeepUnlessExpired(session, now) == None
    ensures now - since >= DIGEST_SESSION_MAX_AGE
  {
  }

  lemma BudgetAgain(l: Local, next: Local, o: Outcome, spent: int, budget: int)
    requires InBudget(o, next, spent) && spent < budget && next.attempt == l.attempt + 1
    ensures InBudget(Again(o), l, budget)
  {
  }

  /** The potential argument: every send but the last one spends one unit of budget. */
  lemma {:induction false} WithinBudget(l: Local, session: Option<Session>, renewed: bool, since: int, expiries: nat,
                                        env: seq<Attempt>, begin: int, span: nat)
    requires WithinSpan(env, begin, span) && l.attempt <= MAX_AUTHENTICATION_ATTEMPTS
    requires l.attempt < |env| ==> since <= env[l.attempt].now
    requires renewed ==> RenewedAt(l, session, since)
    requires begin + span - since < (expiries + 1) * DIGEST_SESSION_MAX_AGE
    ensures InBudget(AuthRun(l, session, env), l, Budget(l, renewed, expiries))
    decreases MAX_AUTHENTICATION_ATTEMPTS - l.attempt
  {
    if l.attempt < MAX_AUTHENTICATION_ATTEMPTS {
      var e := env[l.attempt];
      assert l.attempt + 1 < |env| ==> e.created <= env[l.attempt + 1].now;
      OneAttempt(l, session, env);
      var kept := KeepUnlessExpired(session, e.now);
      if renewed && kept == None {
        TooOld(l, session, since, e.now);
      }
      var left := if renewed && kept == None then expiries - 1 else expiries;
      StepBudget(l, kept.Some?, e.answer, renewed, expiries);
      match Judge(l, kept.Some?, e.answer) {
        case Renew(next) =>
          var fromNow := Some(Session(0, e.created));
          WithinBudget(next, fromNow, true, e.created, left, env, begin, span);
          BudgetAgain(l, next, AuthRun(next, fromNow, env), Budget(next, true, left), Budget(l, renewed, expiries));
        case Pause(next) =>
          var still := renewed && kept.Some?;
          WithinBudget(next, Used(kept), still, if still then since else e.now, left, env, begin, span);
          BudgetAgain(l, next, AuthRun(next, Used(kept), env), Budget(next, still, left), Budget(l, renewed, expiries));
        case _ =>
      }
    }
  }

  /** A call whose clock readings span less than one session age sends at most four
      requests; every further full age in the span allows at most one more. */
  lemma SendBound(session: Option<Session>, env: seq<Attempt>, begin: int, span: nat)
    requires WithinSpan(env, begin, span)
    ensures var o := AuthRun(Start, session, env);
      && o.sends <= 4 + span / DIGEST_SESSION_MAX_AGE
      && (o.end == RetryLimit ==> span >= 3 * DIGEST_SESSION_MAX_AGE)
  {
    WithinBudget(Start, session, false, begin, span / DIGEST_SESSION_MAX_AGE, env, begin, span);
  }

  /** The loop never asks an exhausted session for a header, whatever it meets. */
  lemma {:induction false} NeverExhausted(l: Local, session: Option<Session>, env: seq<Attempt>)
    requires |env| == MAX_AUTHENTICATION_ATTEMPTS
    ensures AuthRun(l, session, env).end != NonceCountExhausted
    decreases MAX_AUTHENTICATION_ATTEMPTS - l.attempt
  {
    if l.attempt < MAX_AUTHENTICATION_ATTEMPTS {
      var e := env[l.attempt];
      var kept := KeepUnlessExpired(session, e.now);
      match Judge(l, kept.Some?, e.answer) {
        case Renew(next) => NeverExhausted(next, Some(Session(0, e.created)), env);
        case Pause(next) => NeverExhausted(next, Used(kept), env);
        case _ =>
      }
    }
  }

  predicate Status(a: Attempt, status: int) { a.answer.Answered? && a.answer.status == status }

  ghost predicate SomeStatus(env: seq<Attempt>, lo: nat, hi: nat, status: int) {
    exists i :: lo <= i < hi <= |env| && Status(env[i], status)
  }

  /** A response that ends a call: it is the last answer, all answers before it were 401 or
      429, at most one of them a 429; a 429 ends the call only as the second one and a 401
      only after an earlier one, and then the session is gone. */
  ghost predicate Explained(l: Local, o: Outcome, env: seq<Attempt>) {
    o.end.Response? ==>
      var last := l.attempt + o.sends - 1;
      && o.sends > 0 && last < |env| && Status(env[last], o.end.status)
      && (forall i :: l.attempt <= i < last ==> Status(env[i], UNAUTHORIZED) || Status(env[i], TOO_MANY_REQUESTS))
      && (forall i :: l.attempt <= i < last && Status(env[i], TOO_MANY_REQUESTS) ==>
            !l.throttled && !SomeStatus(env, l.attempt, i, TOO_MANY_REQUESTS))
      && (o.end.status == TOO_MANY_REQUESTS ==> l.throttled || SomeStatus(env, l.attempt, last, TOO_MANY_REQUESTS))
      && (o.end.status == UNAUTHORIZED ==>
            (l.failures > 0 || SomeStatus(env, l.attempt, last, UNAUTHORIZED)) && o.session == None)
  }

  lemma ExplainedLater(l: Local, next: Local, o: Outcome, env: seq<Attempt>)
    requires l.attempt < |env| && next.attempt == l.attempt + 1 && Explained(next, o, env)
    requires (Status(env[l.attempt], UNAUTHORIZED) && next.throttled == l.throttled) ||
             (Status(env[l.attempt], TOO_MANY_REQUESTS) && !l.throttled && next.throttled)
    requires next.failures > 0 ==> l.failures > 0 || Status(env[l.attempt], UNAUTHORIZED)
    ensures Explained(l, Again(o), env)
  {
    if o.end.Response? {
      var last := next.attempt + o.sends - 1;
      forall i | l.attempt <= i < last && Status(env[i], TOO_MANY_REQUESTS)
        ensures !l.throttled && !SomeStatus(env, l.attempt, i, TOO_MANY_REQUESTS)
      {
        if SomeStatus(env, l.attempt, i, TOO_MANY_REQUESTS) {
          var k :| l.attempt <= k < i && Status(env[k], TOO_MANY_REQUESTS);
          assert k > l.attempt ==> SomeStatus(env, next.attempt, i, TOO_MANY_REQUESTS);
        }
      }
      if SomeStatus(env, next.attempt, last, o.end.status) {
        var k :| next.attempt <= k < last && Status(env[k], o.end.status);
        assert SomeStatus(env, l.attempt, last, o.end.status);
      }
      assert Status(env[l.attempt], o.end.status) ==> SomeStatus(env, l.attempt, last, o.end.status);
    }
  }

  /** A response that ends the call at once. */
  lemma ExplainedNow(l: Local, authenticated: bool, used: Option<Session>, env: seq<Attempt>)
    requires l.attempt < |env| == MAX_AUTHENTICATION_ATTEMPTS
    requires !Judge(l, authenticated, env[l.attempt].answer).Renew?
    requires Judge(l, authenticated, env[l.attempt].answer).Pause? ==> !env[l.attempt].waitOk
    ensures Explained(l, AfterSend(l, authenticated, used, env), env)
  {
  }

  lemma {:induction false} ResponseExplained(l: Local, session: Option<Session>, env: seq<Attempt>)
    requires |env| == MAX_AUTHENTICATION_ATTEMPTS
    ensures Explained(l, AuthRun(l, session, env), env)
    decreases MAX_AUTHENTICATION_ATTEMPTS - l.attempt
  {
    if l.attempt < MAX_AUTHENTICATION_ATTEMPTS {
      var e := env[l.attempt];
      var kept := KeepUnlessExpired(session, e.now);
      OneAttempt(l, session, env);
      match Judge(l, kept.Some?, e.answer) {
        case Renew(next) =>
          ResponseExplained(next, Some(Session(0, e.created)), env);
          ExplainedLater(l, next, AuthRun(next, Some(Session(0, e.created)), env), env);
        case Pause(next) =>
          if e.waitOk {
            ResponseExplained(next, Used(kept), env);
            ExplainedLater(l, next, AuthRun(next, Used(kept), env), env);
          } else {
            ExplainedNow(l, kept.Some?, Used(kept), env);
          }
        case _ => ExplainedNow(l, kept.Some?, Used(kept), env);
      }
    }
  }

  // ------------------------------------------- the call, from its history alone

  /** The session an attempt works with: dropped at 3300 seconds or 30000 counts. */
  function Unexpired(session: Option<Session>, now: int): Option<Session> {
    if session.Some? && now - session.value.createdAt < 3300 && session.value.nonceCount < 30000 then session else None
  }

  function CountedUp(session: Option<Session>): Option<Session> {
    if session.Some? then Some(Session(session.value.nonceCount + 1, session.value.createdAt)) else None
  }

  /** The session found at the top of attempt `k` of a call that got that far: made from the
      401 just before, else what the attempt before left. */
  function Found(session: Option<Session>, env: seq<Attempt>, k: nat): Option<Session>
    requires k <= |env|
    decreases k, 0
  {
    if k == 0 then session
    else if Status(env[k - 1], 401) then Some(Session(0, env[k - 1].created))
    else CountedUp(Held(session, env, k - 1))
  }

  /** The session attempt `k` sends with, if any. */
  function Held(session: Option<Session>, env: seq<Attempt>, k: nat): Option<Session>
    requires k < |env|
    decreases k, 1
  {
    Unexpired(Found(session, env, k), env[k].now)
  }

  /** A 401 to a request that carried a header. */
  predicate AuthFailure(session: Option<Session>, env: seq<Attempt>, k: nat)
    requires k < |env|
  {
    Held(session, env, k).Some? && Status(env[k], 401)
  }

  ghost predicate FailedBefore(session: Option<Session>, env: seq<Attempt>, k: nat)
    requires k <= |env|
  {
    exists i :: 0 <= i < k && AuthFailure(session, env, i)
  }

  ghost predicate ThrottledBefore(env: seq<Attempt>, k: nat)
    requires k <= |env|
  {
    exists i :: 0 <= i < k && Status(env[i], 429)
  }

  /** The request of attempt `k` cannot be signed because its URL does not parse. */
  predicate Unsigned(session: Option<Session>, env: seq<Attempt>, k: nat)
    requires k < |env|
  {
    Held(session, env, k).Some? && !env[k].uriOk
  }

  /** Attempt `k` fails the call: its URL does not parse, its request is not answered, a 401
      that is not a second authenticated one comes without a usable challenge, or the pause
      after a first 429 is cut short. */
  ghost predicate FailsCall(session: Option<Session>, env: seq<Attempt>, k: nat)
    requires k < |env|
  {
    || Unsigned(session, env, k)
    || env[k].answer.SendFailed?
    || (Status(env[k], 401) && !(AuthFailure(session, env, k) && FailedBefore(session, env, k)) && env[k].answer.challenge != Usable)
    || (Status(env[k], 429) && !ThrottledBefore(env, k) && !env[k].waitOk)
  }

  /** Attempt `k` answers the call: with any status but 401 and 429, with a second
      authenticated 401, or with a second 429. */
  ghost predicate AnswersCall(session: Option<Session>, env: seq<Attempt>, k: nat)
    requires k < |env|
  {
    && !Unsigned(session, env, k) && env[k].answer.Answered?
    && (env[k].answer.status == 401 ==> AuthFailure(session, env, k) && FailedBefore(session, env, k))
    && (env[k].answer.status == 429 ==> ThrottledBefore(env, k))
  }

  /** The session that attempt `k` leaves when it ends the call. */
  function Left(session: Option<Session>, env: seq<Attempt>, k: nat): Option<Session>
    requires k < |env|
  {
    if Unsigned(session, env, k) then Held(session, env, k)
    else if Status(env[k], 401) then None
    else CountedUp(Held(session, env, k))
  }

  /** The loop before attempt `k`, seen from the history. */
  ghost predicate Reached(session: Option<Session>, env: seq<Attempt>, l: Local, found: Option<Session>)
    requires l.attempt <= |env|
  {
    && found == Found(session, env, l.attempt)
    && (l.failures > 0 <==> FailedBefore(session, env, l.attempt))
    && (l.throttled <==> ThrottledBefore(env, l.attempt))
    && forall i :: 0 <= i < l.attempt ==> !FailsCall(session, env, i) && !AnswersCall(session, env, i)
  }

  /** How the rest of a call ends, in terms of the attempts alone: at the first attempt that
      fails or answers it, or else at the retry limit. */
  ghost predicate EndsRight(session: Option<Session>, env: seq<Attempt>, from: nat, o: Outcome)
    requires from <= |env|
  {
    match o.end
    case RetryLimit =>
      && o.sends == |env| - from && forall i :: from <= i < |env| ==> !FailsCall(session, env, i) && !AnswersCall(session, env, i)
    case NonceCountExhausted => false
    case Response(status) =>
      && 0 < o.sends && from + o.sends <= |env|
      && var k := from + o.sends - 1;
      && AnswersCall(session, env, k) && Status(env[k], status) && o.session == Left(session, env, k)
      && forall i :: from <= i < k ==> !FailsCall(session, env, i) && !AnswersCall(session, env, i)
    case Failed =>
      exists k :: from <= k < |env| && FailsCall(session, env, k) && o.session == Left(session, env, k)
        && o.sends == k - from + (if Unsigned(session, env, k) then 0 else 1)
        && forall i :: from <= i < k ==> !FailsCall(session, env, i) && !AnswersCall(session, env, i)
  }

  lemma HeldKept(session: Option<Session>, env: seq<Attempt>, l: Local, found: Option<Session>)
    requires l.attempt < |env| && found == Found(session, env, l.attempt)
    ensures KeepUnlessExpired(found, env[l.attempt].now) == Held(session, env, l.attempt)
    ensures Used(Held(session, env, l.attempt)) == CountedUp(Held(session, env, l.attempt))
  {
  }

  lemma HistoryOneMore(session: Option<Session>, env: seq<Attempt>, k: nat)
    requires k < |env|
    ensures FailedBefore(session, env, k + 1) <==> FailedBefore(session, env, k) || AuthFailure(session, env, k)
    ensures ThrottledBefore(env, k + 1) <==> ThrottledBefore(env, k) || Status(env[k], 429)
  {
  }

  /** What a verdict of the loop says about the attempt it was passed on. */
  ghost predicate Means(session: Option<Session>, env: seq<Attempt>, k: nat, v: Verdict)
    requires k < |env|
  {
    match v
    case Respond(status, drop) =>
      AnswersCall(session, env, k) && Status(env[k], status)
      && Left(session, env, k) == if drop then None else CountedUp(Held(session, env, k))
    case Fail(drop) =>
      FailsCall(session, env, k) && Left(session, env, k) == if drop then None else CountedUp(Held(session, env, k))
    case Renew(next) =>
      !FailsCall(session, env, k) && !AnswersCall(session, env, k) && next.attempt == k + 1
      && Reached(session, env, next, Some(Session(0, env[k].created)))
    case Pause(next) =>
      !AnswersCall(session, env, k) && (FailsCall(session, env, k) <==> !env[k].waitOk) && next.attempt == k + 1
      && Left(session, env, k) == CountedUp(Held(session, env, k))
      && (env[k].waitOk ==> Reached(session, env, next, CountedUp(Held(session, env, k))))
  }

  /** What the loop does with the attempt it has reached. */
  lemma AttemptExactly(session: Option<Session>, env: seq<Attempt>, l: Local, found: Option<Session>)
    requires l.attempt < |env| && Reached(session, env, l, found) && !Unsigned(session, env, l.attempt)
    ensures Means(session, env, l.attempt, Judge(l, Held(session, env, l.attempt).Some?, env[l.attempt].answer))
  {
    HistoryOneMore(session, env, l.attempt);
  }

  lemma EndsLater(session: Option<Session>, env: seq<Attempt>, k: nat, o: Outcome)
    requires k < |env| && EndsRight(session, env, k + 1, o) && !FailsCall(session, env, k) && !AnswersCall(session, env, k)
    ensures EndsRight(session, env, k, Again(o))
  {
  }

  lemma EndsNow(session: Option<Session>, env: seq<Attempt>, k: nat, o: Outcome)
    requires k < |env| && o.session == Left(session, env, k)
    requires || (FailsCall(session, env, k) && o.end == Failed && o.sends == if Unsigned(session, env, k) then 0 else 1)
             || (AnswersCall(session, env, k) && o.end == Response(env[k].answer.status) && o.sends == 1)
    ensures EndsRight(session, env, k, o)
  {
  }

  lemma {:induction false} RestExactly(session: Option<Session>, env: seq<Attempt>, l: Local, found: Option<Session>)
    requires |env| == MAX_AUTHENTICATION_ATTEMPTS && l.attempt <= |env| && Reached(session, env, l, found)
    ensures EndsRight(session, env, l.attempt, AuthRun(l, found, env))
    decreases MAX_AUTHENTICATION_ATTEMPTS - l.attempt
  {
    if l.attempt < |env| {
      var k, held := l.attempt, Held(session, env, l.attempt);
      OneAttempt(l, found, env);
      HeldKept(session, env, l, found);
      if Unsigned(session, env, k) {
        EndsNow(session, env, k, Outcome(0, held, Failed));
      } else {
        AttemptExactly(session, env, l, found);
        match Judge(l, held.Some?, env[k].answer) {
          case Respond(status, drop) => EndsNow(session, env, k, AuthRun(l, found, env));
          case Fail(drop) => EndsNow(session, env, k, AuthRun(l, found, env));
          case Renew(next) =>
            RestExactly(session, env, next, Some(Session(0, env[k].created)));
            EndsLater(session, env, k, AuthRun(next, Some(Session(0, env[k].created)), env));
          case Pause(next) =>
            if env[k].waitOk {
              RestExactly(session, env, next, CountedUp(held));
              EndsLater(session, env, k, AuthRun(next, CountedUp(held), env));
            } else {
              EndsNow(session, env, k, AuthRun(l, found, env));
            }
        }
      }
    }
  }

  /** How every call ends, from the session it found and the attempts it met alone: with
      the first attempt that answers or fails it, at the retry limit if none does. */
  lemma CallExactly(session: Option<Session>, env: seq<Attempt>)
    requires |env| == MAX_AUTHENTICATION_ATTEMPTS
    ensures EndsRight(session, env, 0, AuthRun(Start, session, env))
  {
    RestExactly(session, env, Start, session);
  }

  /** An answered request whose status is neither 401 nor 429 ends the call with that status,
      and the session it was sent with stays, counted up by one. */
  lemma OrdinaryAnswerReturned(session: Option<Session>, env: seq<Attempt>, k: nat)
    requires |env| == MAX_AUTHENTICATION_ATTEMPTS && k < AuthRun(Start, session, env).sends && k < |env|
    requires env[k].answer.Answered? && env[k].answer.status != 401 && env[k].answer.status != 429
    ensures AuthRun(Start, session, env) == Outcome(k + 1, CountedUp(Held(session, env, k)), Response(env[k].answer.status))
  {
    CallExactly(session, env);
    OrdinaryEnds(session, env, k, AuthRun(Start, session, env));
  }

  lemma OrdinaryEnds(session: Option<Session>, env: seq<Attempt>, k: nat, o: Outcome)
    requires EndsRight(session, env, 0, o) && k < o.sends && k < |env|
    requires env[k].answer.Answered? && env[k].answer.status != 401 && env[k].answer.status != 429
    ensures o == Outcome(k + 1, CountedUp(Held(session, env, k)), Response(env[k].answer.status))
  {
    assert Unsigned(session, env, k) ==> FailsCall(session, env, k);
    assert !Unsigned(session, env, k) ==> AnswersCall(session, env, k);
  }

  /** In particular a first request that is answered so. */
  lemma FirstAnswerReturned(session: Option<Session>, env: seq<Attempt>)
    requires |env| == MAX_AUTHENTICATION_ATTEMPTS && env[0].answer.Answered?
    requires env[0].answer.status != 401 && env[0].answer.status != 429
    requires Unexpired(session, env[0].now).Some? ==> env[0].uriOk
    ensures AuthRun(Start, session, env) ==
      Outcome(1, CountedUp(Unexpired(session, env[0].now)), Response(env[0].answer.status))
  {
    CallExactly(session, env);
    assert AnswersCall(session, env, 0) && !FailsCall(session, env, 0);
  }

  /** A call fails exactly when some attempt fails it and none before ended it. */
  lemma FailsExactly(session: Option<Session>, env: seq<Attempt>)
    requires |env| == MAX_AUTHENTICATION_ATTEMPTS
    ensures AuthRun(Start, session, env).end == Failed <==>
      exists k :: 0 <= k < |env| && FailsCall(session, env, k)
        && forall i :: 0 <= i < k ==> !FailsCall(session, env, i) && !AnswersCall(session, env, i)
  {
    CallExactly(session, env);
    var o := AuthRun(Start, session, env);
    if k :| 0 <= k < |env| && FailsCall(session, env, k) && forall i :: 0 <= i < k ==> !FailsCall(session, env, i) && !AnswersCall(session, env, i) {
      NotBoth(session, env, k);
      if o.end.Response? {
        NotBoth(session, env, o.sends - 1);
      }
    }
  }

  /** No attempt both fails and answers a call. */
  lemma NotBoth(session: Option<Session>, env: seq<Attempt>, k: nat)
    requires k < |env|
    ensures !(FailsCall(session, env, k) && AnswersCall(session, env, k))
  {
  }

  function Meets(now: int, status: int): Attempt {
    Attempt(now, true, Answered(status, Usable), now, true)
  }

  /** A session that turns out too old right after it was created costs a fifth send. */
  lemma FiveSends()
    ensures var env := [Meets(0, 401), Meets(3300, 401), Meets(3300, 401), Meets(3300, 429), Meets(3300, 200), Meets(3300, 200)];
      WithinSpan(env, 0, DIGEST_SESSION_MAX_AGE) && AuthRun(Start, None, env).sends == 5
  {
    var env := [Meets(0, 401), Meets(3300, 401), Meets(3300, 401), Meets(3300, 429), Meets(3300, 200), Meets(3300, 200)];
    assert AuthRun(Local(4, 1, true), Some(Session(1, 3300)), env).sends == 1;
    assert AuthRun(Local(3, 1, false), Some(Session(0, 3300)), env).sends == 2;
    assert AuthRun(Local(2, 0, false), Some(Session(0, 3300)), env).sends == 3;
    assert AuthRun(Local(1, 0, false), Some(Session(0, 0)), env).sends == 4;
  }

  /** Three sessions that turn out too old take the loop to its retry limit. */
  lemma RetryLimitReached()
    ensures var env := [Meets(0, 401), Meets(3300, 401), Meets(6600, 401), Meets(9900, 401), Meets(9900, 401), Meets(9900, 429)];
      WithinSpan(env, 0, 3 * DIGEST_SESSION_MAX_AGE) && AuthRun(Start, None, env).end == RetryLimit
  {
    var env := [Meets(0, 401), Meets(3300, 401), Meets(6600, 401), Meets(9900, 401), Meets(9900, 401), Meets(9900, 429)];
    assert AuthRun(Local(5, 1, false), Some(Session(0, 9900)), env).end == RetryLimit;
    assert AuthRun(Local(4, 0, false), Some(Session(0, 9900)), env).end == RetryLimit;
    assert AuthRun(Local(3, 0, false), Some(Session(0, 6600)), env).end == RetryLimit;
    assert AuthRun(Local(2, 0, false), Some(Session(0, 3300)), env).end == RetryLimit;
    assert AuthRun(Local(1, 0, false), Some(Session(0, 0)), env).end == RetryLimit;
  }

  /** Four sends are enough for every call of a given duration exactly when that
      duration is shorter than the session age. */
  lemma FourSendsExactly(span: nat)
    ensures (forall session, env, begin :: WithinSpan(env, begin, span) ==> AuthRun(Start, session, env).sends <= 4)
      <==> span < DIGEST_SESSION_MAX_AGE
  {
    forall session, env, begin | WithinSpan(env, begin, span) && span < DIGEST_SESSION_MAX_AGE
      ensures AuthRun(Start, session, env).sends <= 4
    {
      SendBound(session, env, begin, span);
    }
    if span >= DIGEST_SESSION_MAX_AGE {
      FiveSends();
      var env := [Meets(0, 401), Meets(3300, 401), Meets(3300, 401), Meets(3300, 429), Meets(3300, 200), Meets(3300, 200)];
      assert WithinSpan(env, 0, span);
    }
  }

  /** The retry-limit exit cannot be taken in a call of a given duration exactly when
      that duration is shorter than three session ages. */
  lemma RetryLimitExactly(span: nat)
    ensures (forall session, env, begin :: WithinSpan(env, begin, span) ==> AuthRun(Start, session, env).end != RetryLimit)
      <==> span < 3 * DIGEST_SESSION_MAX_AGE
  {
    forall session, env, begin | WithinSpan(env, begin, span) && span < 3 * DIGEST_SESSION_MAX_AGE
      ensures AuthRun(Start, session, env).end != RetryLimit
    {
      SendBound(session, env, begin, span);
    }
    if span >= 3 * DIGEST_SESSION_MAX_AGE {
      RetryLimitReached();
      var env := [Meets(0, 401), Meets(3300, 401), Meets(6600, 401), Meets(9900, 401), Meets(9900, 401), Meets(9900, 429)];
      assert WithinSpan(env, 0, span);
    }
  }

  // ----------------------------------------------------------- status operations

  /** What one attempt of a status operation meets. The slot is released between
      attempts, so the session found is whatever other requests left behind. */
  datatype Try = Try(acquired: bool, authenticated: bool, found: Option<Session>, env: seq<Attempt>,
                     decodeOk: bool, failure: Failure, ctxOver: bool, pauseOk: bool)

  /** What an error, if there is one, is made of: the deferral of a probe, one of the three
      certificate errors, a timeout of the network, a connection that ended or was refused. */
  datatype Failure = Failure(deferred: bool, certificate: bool, timeout: bool, broken: bool)

  /** shouldRetryStatus. */
  predicate Transient(f: Failure, ctxOver: bool) {
    !f.deferred && !ctxOver && !f.certificate && (f.timeout || f.broken)
  }

  predicate WellFormed(t: Try) { |t.env| == MAX_AUTHENTICATION_ATTEMPTS }

  function CallOnce(t: Try): Outcome
    requires WellFormed(t)
  {
    if !t.acquired then Outcome(0, t.found, Failed)
    else if t.authenticated then AuthRun(Start, t.found, t.env)
    else PlainRun(0, t.env)
  }

  predicate Succeeds(t: Try)
    requires WellFormed(t)
  {
    var end := CallOnce(t).end;
    end.Response? && 200 <= end.status < 300 && t.decodeOk
  }

  /** Of the errors of an attempt only those of transport and decoding can be transient. */
  predicate Retries(t: Try)
    requires WellFormed(t)
  {
    var end := CallOnce(t).end;
    Transient(t.failure, t.ctxOver) && (end.Failed? || (end.Response? && 200 <= end.status < 300))
  }

  function StatusRun(attempt: nat, tries: seq<Try>): (r: (nat, bool))
    requires |tries| == MAX_STATUS_ATTEMPTS && forall t :: t in tries ==> WellFormed(t)
    decreases MAX_STATUS_ATTEMPTS - attempt
  {
    if attempt >= MAX_STATUS_ATTEMPTS then (0, false)
    else
      var t := tries[attempt];
      var sends := CallOnce(t).sends;
      if Succeeds(t) then (sends, true)
      else if attempt + 1 == MAX_STATUS_ATTEMPTS || !Retries(t) || !t.pauseOk then (sends, false)
      else
        var rest := StatusRun(attempt + 1, tries);
        (sends + rest.0, rest.1)
  }

  method GetStatus(tries: seq<Try>) returns (sends: nat, ok: bool)
    requires |tries| == MAX_STATUS_ATTEMPTS && forall t :: t in tries ==> WellFormed(t)
    ensures (sends, ok) == StatusRun(0, tries)
    ensures ok ==> exists t :: t in tries && Succeeds(t)
  {
    sends, ok := 0, false;
    for attempt := 0 to MAX_STATUS_ATTEMPTS
      invariant !ok
      invariant StatusRun(0, tries) == var rest := StatusRun(attempt, tries); (sends + rest.0, rest.1)
    {
      var t := tries[attempt];
      sends := sends + CallOnce(t).sends;
      if Succeeds(t) {
        return sends, true;
      }
      if attempt + 1 == MAX_STATUS_ATTEMPTS || !Retries(t) || !t.pauseOk {
        return sends, false;
      }
    }
  }

  /** The last attempt decides. */
  lemma LastAttempt(tries: seq<Try>)
    requires |tries| == MAX_STATUS_ATTEMPTS && forall t :: t in tries ==> WellFormed(t)
    ensures StatusRun(1, tries) == (CallOnce(tries[1]).sends, Succeeds(tries[1]))
  {
  }

  /** An attempt that ends with a 2xx response whose body decodes. */
  predicate Good(t: Try)
    requires WellFormed(t)
  {
    var end := CallOnce(t).end;
    end.Response? && 200 <= end.status && end.status <= 299 && t.decodeOk
  }

  /** The first attempt failed in transport or decoding, with an error that can be retried:
      a timeout or a broken connection, not a deferral, not a certificate error, and the
      caller still waiting. */
  predicate WorthRetrying(t: Try)
    requires WellFormed(t)
  {
    var end := CallOnce(t).end;
    && (end == Failed || (end.Response? && 200 <= end.status && end.status <= 299 && !t.decodeOk))
    && (t.failure.timeout || t.failure.broken)
    && !t.failure.deferred && !t.failure.certificate && !t.ctxOver && t.pauseOk
  }

  /** A status operation succeeds exactly when its first attempt is good, or when that is worth
      retrying and the second is good; it makes the second attempt in that case only. */
  lemma SecondAttemptExactly(tries: seq<Try>)
    requires |tries| == MAX_STATUS_ATTEMPTS && forall t :: t in tries ==> WellFormed(t)
    ensures StatusRun(0, tries) ==
      if Good(tries[0]) then (CallOnce(tries[0]).sends, true)
      else if WorthRetrying(tries[0]) then (CallOnce(tries[0]).sends + CallOnce(tries[1]).sends, Good(tries[1]))
      else (CallOnce(tries[0]).sends, false)
  {
    LastAttempt(tries);
  }

  /** A device that answers the first request of a tool without password with a good status
      is read at once, whatever comes later. */
  lemma PlainStatusAtOnce(tries: seq<Try>)
    requires |tries| == MAX_STATUS_ATTEMPTS && forall t :: t in tries ==> WellFormed(t)
    requires WellFormed(tries[0]) && tries[0].acquired && !tries[0].authenticated && tries[0].decodeOk && Status(tries[0].env[0], 200)
    ensures StatusRun(0, tries) == (1, true)
  {
    PlainExactly(tries[0].env);
  }

  /** The same for a tool with a password and a session that is still good. */
  lemma SessionStatusAtOnce(tries: seq<Try>)
    requires |tries| == MAX_STATUS_ATTEMPTS && forall t :: t in tries ==> WellFormed(t)
    requires WellFormed(tries[0]) && tries[0].acquired && tries[0].authenticated && tries[0].decodeOk && Status(tries[0].env[0], 200)
    requires tries[0].env[0].uriOk && Unexpired(tries[0].found, tries[0].env[0].now).Some?
    ensures StatusRun(0, tries) == (1, true)
  {
    FirstAnswerReturned(tries[0].found, tries[0].env);
  }

  /** An attempt that does not get the slot sends nothing and is no success. */
  lemma UnacquiredSendsNothing(t: Try)
    requires WellFormed(t) && !t.acquired
    ensures CallOnce(t).sends == 0 && !Good(t)
  {
  }

  /** doUnauthenticatedGET by its answers: the first one unless it is a 429 whose pause is
      waited out, then the second. */
  lemma PlainExactly(env: seq<Attempt>)
    requires |env| >= 2
    ensures PlainRun(0, env) ==
      if env[0].answer.SendFailed? then Outcome(1, None, Failed)
      else if env[0].answer.status != 429 then Outcome(1, None, Response(env[0].answer.status))
      else if !env[0].waitOk then Outcome(1, None, Failed)
      else if env[1].answer.SendFailed? then Outcome(2, None, Failed)
      else Outcome(2, None, Response(env[1].answer.status))
  {
    assert PlainRun(1, env) ==
      if env[1].answer.SendFailed? then Outcome(1, None, Failed) else Outcome(1, None, Response(env[1].answer.status));
  }

  /** doUnauthenticatedGET sends at most twice and its retry-limit exit is dead. */
  lemma PlainSendBound(env: seq<Attempt>)
    requires |env| >= 2
    ensures PlainRun(0, env).sends <= 2 && PlainRun(0, env).end != RetryLimit
  {
    assert PlainRun(1, env).sends == 1;
  }

  /** A status operation sends at most eight requests when neither call lasts a session age. */
  lemma EightSends(tries: seq<Try>, begins: seq<int>, span: nat)
    requires |tries| == |begins| == MAX_STATUS_ATTEMPTS && forall t :: t in tries ==> WellFormed(t)
    requires forall i :: 0 <= i < |tries| ==> WithinSpan(tries[i].env, begins[i], span)
    requires span < DIGEST_SESSION_MAX_AGE
    ensures StatusRun(0, tries).0 <= 8
  {
    forall i | 0 <= i < |tries| ensures CallOnce(tries[i]).sends <= 4 {
      SendBound(tries[i].found, tries[i].env, begins[i], span);
      PlainSendBound(tries[i].env);
    }
    assert StatusRun(1, tries).0 <= 4;
  }

  /** Eight is attained: both calls meet 401, 401 and 429, and the first one then
      loses its connection. */
  lemma EightSendsAttained()
    ensures exists tries: seq<Try> ::
      (|tries| == MAX_STATUS_ATTEMPTS
       && (forall t :: t in tries ==> WellFormed(t) && WithinSpan(t.env, 0, 0))
       && StatusRun(0, tries).0 == 8)
  {
    var lost := Attempt(0, true, SendFailed, 0, true);
    var env := [Meets(0, 401), Meets(0, 401), Meets(0, 429), lost, lost, lost];
    assert AuthRun(Local(3, 1, true), Some(Session(1, 0)), env).sends == 1;
    assert AuthRun(Local(2, 1, false), Some(Session(0, 0)), env).sends == 2;
    assert AuthRun(Local(1, 0, false), Some(Session(0, 0)), env).sends == 3;
    var o := AuthRun(Start, None, env);
    assert o.sends == 4;
    assert AuthRun(Local(3, 1, true), Some(Session(1, 0)), env).end == Failed;
    assert AuthRun(Local(2, 1, false), Some(Session(0, 0)), env).end == Failed;
    assert AuthRun(Local(1, 0, false), Some(Session(0, 0)), env).end == Failed;
    assert o.end == Failed;
    var t := Try(true, true, None, env, false, Failure(false, false, true, false), false, true);
    var tries := [t, t];
    assert StatusRun(1, tries).0 == 4;
    assert StatusRun(0, tries).0 == 8;
  }
}
