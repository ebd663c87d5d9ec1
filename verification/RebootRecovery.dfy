/**
  Controlled recovery of Shelly devices: an error report may start a reboot of the
  device unless one is in flight or the last one is too recent. The clock is read
  before the lock is taken, so reports reach the lock with readings in any order.
 */
module RebootRecovery {
  import opened Optional
  import opened Text

  /** A clock reading; the zero time of the source is not one of them. */
  type Instant = t: int | t > 0 witness 1

  /** `lastAttempt` is None for the zero time. */
  datatype Recovery = Recovery(inFlight: bool, lastAttempt: Option<Instant>)

  const NoRecovery := Recovery(false, None)

  type Table = map<string, Recovery>

  function Lookup(table: Table, key: string): Recovery {
    if key in table then table[key] else NoRecovery
  }

  predicate Suppressed(r: Recovery, now: Instant, cooldown: nat) {
    r.inFlight || (r.lastAttempt.Some? && now - r.lastAttempt.value < cooldown)
  }

  /** scheduleReboot's critical section: the new table and whether a reboot starts. */
  function Schedule(table: Table, ip: string, now: Instant, cooldown: nat): (Table, bool) {
    var key := TrimSpace(ip);
    if key == "" || Suppressed(Lookup(table, key), now, cooldown) then (table, false)
    else (table[key := Recovery(true, Some(now))], true)
  }

  /** The critical section at the end of the reboot goroutine. */
  function Finish(table: Table, key: string): Table {
    table[key := Lookup(table, key).(inFlight := false)]
  }

  class Client {
    const rebootCooldown: nat
    var recoveryByIP: Table

    constructor (cooldown: nat)
      ensures rebootCooldown == cooldown && recoveryByIP == map[]
    {
      rebootCooldown, recoveryByIP := cooldown, map[];
    }

    method ScheduleReboot(ip: string, now: Instant) returns (started: bool)
      modifies this
      ensures (recoveryByIP, started) == Schedule(old(recoveryByIP), ip, now, rebootCooldown)
    {
      var key := TrimSpace(ip);
      if key == "" {
        return false;
      }
      var state := Lookup(recoveryByIP, key);
      if state.inFlight {
        return false;
      }
      if state.lastAttempt.Some? && now - state.lastAttempt.value < rebootCooldown {
        return false;
      }
      state := state.(inFlight := true);
      state := state.(lastAttempt := Some(now));
      recoveryByIP := recoveryByIP[key := state];
      started := true;
    }

    method FinishReboot(key: string)
      modifies this
      ensures recoveryByIP == Finish(old(recoveryByIP), key)
    {
      var state := Lookup(recoveryByIP, key);
      state := state.(inFlight := false);
      recoveryByIP := recoveryByIP[key := state];
    }
  }

  // ------------------------------------------------------------------- runs

  /** `flying` are the reboot goroutines that have not finished, by device;
      `attempts` is the history of recorded attempt times of each device. */
  datatype State = State(table: Table, flying: multiset<string>, attempts: map<string, seq<Instant>>)

  datatype Label = Report(ip: string, now: Instant) | Finished(key: string)

  const Init := State(map[], multiset{}, map[])

  function Attempts(s: State, key: string): seq<Instant> {
    if key in s.attempts then s.attempts[key] else []
  }

  predicate Enabled(s: State, l: Label) {
    l.Finished? ==> l.key in s.flying
  }

  function Next(s: State, l: Label, cooldown: nat): State
    requires Enabled(s, l)
  {
    match l
    case Report(ip, now) =>
      var r := Schedule(s.table, ip, now, cooldown);
      var key := TrimSpace(ip);
      if r.1 then State(r.0, s.flying + multiset{key}, s.attempts[key := Attempts(s, key) + [now]])
      else s.(table := r.0)
    case Finished(key) => s.(table := Finish(s.table, key), flying := s.flying - multiset{key})
  }

  datatype Run = Run(states: seq<State>, labels: seq<Label>)

  ghost predicate IsRun(run: Run, cooldown: nat) {
    && |run.states| == |run.labels| + 1
    && run.states[0] == Init
    && forall i :: 0 <= i < |run.labels| ==>
         Enabled(run.states[i], run.labels[i]) && run.states[i + 1] == Next(run.states[i], run.labels[i], cooldown)
  }

  ghost predicate Spaced(h: seq<Instant>, cooldown: nat) {
    forall i :: 0 <= i < |h| - 1 ==> h[i] + cooldown <= h[i + 1]
  }

  ghost predicate KeyInv(s: State, key: string, cooldown: nat) {
    var r := Lookup(s.table, key);
    var h := Attempts(s, key);
    && Spaced(h, cooldown)
    && s.flying[key] == (if r.inFlight then 1 else 0)
    && r.lastAttempt == if h == [] then None else Some(h[|h| - 1])
  }

  lemma KeyStep(s: State, l: Label, cooldown: nat, key: string)
    requires KeyInv(s, key, cooldown) && Enabled(s, l)
    ensures KeyInv(Next(s, l, cooldown), key, cooldown)
  {
    var t := Next(s, l, cooldown);
    if l.Report? && key == TrimSpace(l.ip) && Attempts(t, key) != Attempts(s, key) {
      var h := Attempts(s, key);
      assert Attempts(t, key) == h + [l.now];
    }
  }

  /** Attempts on one device, in the order they were recorded, are at least one cooldown
      apart, at most one is in flight, and the flag says whether one is. */
  lemma {:induction false} AttemptsSpaced(run: Run, cooldown: nat, i: nat, key: string)
    requires IsRun(run, cooldown) && i < |run.states|
    ensures Spaced(Attempts(run.states[i], key), cooldown)
    ensures run.states[i].flying[key] <= 1
    ensures run.states[i].flying[key] == 1 <==> Lookup(run.states[i].table, key).inFlight
    ensures KeyInv(run.states[i], key, cooldown)
  {
    if i > 0 {
      AttemptsSpaced(run, cooldown, i - 1, key);
      KeyStep(run.states[i - 1], run.labels[i - 1], cooldown, key);
    }
  }

  /** An error report in any reachable state starts a reboot exactly when the device has an
      address, no reboot of it is under way, and its last attempt, if any, is at least one
      cooldown ago. Other devices are not affected. */
  lemma ReportStartsExactly(run: Run, cooldown: nat, i: nat, ip: string, now: Instant, other: string)
    requires IsRun(run, cooldown) && i < |run.states|
    ensures var s, key := run.states[i], TrimSpace(ip);
      && var t, h := Next(s, Report(ip, now), cooldown), Attempts(s, key);
      && var starts := key != "" && s.flying[key] == 0 && (h == [] || now - h[|h| - 1] >= cooldown);
      && Attempts(t, key) == (if starts then h + [now] else h)
      && t.flying == (if starts then s.flying + multiset{key} else s.flying)
      && (other != key ==> Attempts(t, other) == Attempts(s, other))
  {
    AttemptsSpaced(run, cooldown, i, TrimSpace(ip));
  }

  /** When a reboot ends, successfully or not, its device may be rebooted again as soon as
      the cooldown is over. */
  lemma FinishAllowsNext(run: Run, cooldown: nat, i: nat, ip: string, now: Instant)
    requires IsRun(run, cooldown) && i < |run.states| && TrimSpace(ip) != ""
    requires Enabled(run.states[i], Finished(TrimSpace(ip)))
    ensures var s, key := run.states[i], TrimSpace(ip);
      && var h, ended := Attempts(s, key), Next(s, Finished(key), cooldown);
      && h != [] && Attempts(ended, key) == h && ended.flying == s.flying - multiset{key} && ended.flying[key] == 0
      && var t := Next(ended, Report(ip, now), cooldown);
      Attempts(t, key) == if now >= h[|h| - 1] + cooldown then h + [now] else h
  {
    var s, key := run.states[i], TrimSpace(ip);
    AttemptsSpaced(run, cooldown, i, key);
    FlyingAttempted(run, cooldown, i, key);
    KeyStep(s, Finished(key), cooldown, key);
  }

  lemma {:induction false} FlyingAttempted(run: Run, cooldown: nat, i: nat, key: string)
    requires IsRun(run, cooldown) && i < |run.states| && run.states[i].flying[key] > 0
    ensures Attempts(run.states[i], key) != []
  {
    if i > 0 {
      assert Attempts(run.states[i - 1], key) != [] ==> Attempts(run.states[i], key) != [];
      if run.states[i - 1].flying[key] > 0 {
        FlyingAttempted(run, cooldown, i - 1, key);
      }
    }
  }

  /** How many of the times lie in the closed interval from `lo` to `hi`. */
  function CountIn(h: seq<Instant>, lo: int, hi: int): nat {
    if h == [] then 0
    else CountIn(h[..|h| - 1], lo, hi) + if lo <= h[|h| - 1] <= hi then 1 else 0
  }

  lemma {:induction false} SpacedBefore(h: seq<Instant>, cooldown: nat, i: nat)
    requires Spaced(h, cooldown) && i < |h| - 1
    ensures h[i] + cooldown <= h[|h| - 1]
    decreases |h| - i
  {
    if i + 2 < |h| {
      SpacedBefore(h, cooldown, i + 1);
      assert h[i] + cooldown <= h[i + 1];
    }
  }

  lemma {:induction false} CountCapped(h: seq<Instant>, lo: int, hi: int, cap: int)
    requires forall i :: 0 <= i < |h| ==> h[i] <= cap
    ensures CountIn(h, lo, hi) <= CountIn(h, lo, cap)
  {
    if h != [] {
      CountCapped(h[..|h| - 1], lo, hi, cap);
    }
  }

  lemma {:induction false} CountEmpty(h: seq<Instant>, lo: int, hi: int)
    requires hi < lo
    ensures CountIn(h, lo, hi) == 0
  {
    if h != [] {
      CountEmpty(h[..|h| - 1], lo, hi);
    }
  }

  lemma TimesMonotone(a: int, b: int, c: nat)
    requires a <= b
    ensures a * c <= b * c
  {
  }

  lemma QuotientBounds(k: int, w: nat, c: nat)
    requires c > 0 && k * c <= w
    ensures k <= w / c
  {
    var q := w / c;
    assert w == q * c + w % c;
    if k > q {
      TimesMonotone(q + 1, k, c);
    }
  }

  lemma OneMoreGap(n: int, m: int, c: nat, w: int)
    requires n <= m && (m - 1) * c <= w
    ensures n * c <= w + c
  {
    TimesMonotone(n, m, c);
  }

  /** Spaced times inside a window: the gaps between them fit into it. */
  lemma {:induction false} GapsFit(h: seq<Instant>, cooldown: nat, lo: int, hi: int)
    requires Spaced(h, cooldown) && lo <= hi && CountIn(h, lo, hi) > 0 && cooldown > 0
    ensures (CountIn(h, lo, hi) - 1) * cooldown <= hi - lo
  {
    var front, last := h[..|h| - 1], h[|h| - 1];
    var n := CountIn(front, lo, hi);
    if !(lo <= last <= hi) {
      GapsFit(front, cooldown, lo, hi);
    } else if n > 0 {
      var cap := last - cooldown;
      forall i | 0 <= i < |front| ensures front[i] <= cap {
        SpacedBefore(h, cooldown, i);
      }
      CountCapped(front, lo, hi, cap);
      if cap < lo {
        CountEmpty(front, lo, cap);
      }
      GapsFit(front, cooldown, lo, cap);
      OneMoreGap(n, CountIn(front, lo, cap), cooldown, cap - lo);
    }
  }

  /** Spaced times: a window of length w holds at most w / cooldown + 1 of them. */
  lemma WindowOfSpaced(h: seq<Instant>, cooldown: nat, lo: int, w: nat)
    requires Spaced(h, cooldown) && cooldown > 0
    ensures CountIn(h, lo, lo + w) <= w / cooldown + 1
  {
    if CountIn(h, lo, lo + w) > 0 {
      GapsFit(h, cooldown, lo, lo + w);
      QuotientBounds(CountIn(h, lo, lo + w) - 1, w, cooldown);
    }
  }

  /** However error reports interleave, any window of length w sees at most
      floor(w / cooldown) + 1 recorded reboot attempts of one device. */
  lemma AttemptsInWindow(run: Run, cooldown: nat, i: nat, key: string, lo: int, w: nat)
    requires IsRun(run, cooldown) && i < |run.states| && cooldown > 0
    ensures CountIn(Attempts(run.states[i], key), lo, lo + w) <= w / cooldown + 1
  {
    AttemptsSpaced(run, cooldown, i, key);
    WindowOfSpaced(Attempts(run.states[i], key), cooldown, lo, w);
  }

  lemma TwoInWindow(cooldown: nat)
    ensures var h: seq<Instant> := [1, 1 + cooldown]; CountIn(h, 1, 1 + cooldown) == 2
  {
    var h: seq<Instant> := [1, 1 + cooldown];
    assert h[..1] == [1] && h[..1][..0] == [];
    assert CountIn(h[..1], 1, 1 + cooldown) == 1;
  }

  /** The bound is met: reports exactly one cooldown apart, the first reboot finishing
      in between, are both acted on. */
  lemma WindowBoundAttained(cooldown: nat, ip: string)
    requires cooldown > 0 && TrimSpace(ip) == ip != ""
    ensures var a := Next(Init, Report(ip, 1), cooldown);
      && Enabled(a, Finished(ip))
      && var c := Next(Next(a, Finished(ip), cooldown), Report(ip, 1 + cooldown), cooldown);
      CountIn(Attempts(c, ip), 1, 1 + cooldown) == 2 == cooldown / cooldown + 1
  {
    var a := Next(Init, Report(ip, 1), cooldown);
    var b := Next(a, Finished(ip), cooldown);
    var c := Next(b, Report(ip, 1 + cooldown), cooldown);
    assert Attempts(a, ip) == Attempts(b, ip) == [1];
    assert Attempts(c, ip) == [1, 1 + cooldown];
    TwoInWindow(cooldown);
  }
}
