/**
  The writers of the status store and their races: FBS handlers, which draw a
  revision after the device call and then record it, and the single-flight fleet
  refresh of the admin server, whose revision is drawn when it starts.
 */
module FleetRefresh {
  import opened Optional
  import opened GatewayConfig
  import opened StatusStore

  /** The result of one device call. */
  datatype Result = Output(on: bool) | Failure(error: string)

  function ResultRow(tool: Tool, safeOutput: bool, result: Result): Row {
    match result
    case Output(on) => SuccessRow(tool, on)
    case Failure(error) => FailureRow(tool, safeOutput, error)
  }

  /** No row has a revision that has not been drawn yet. */
  ghost predicate UpToDate(s: Rows, next: nat) {
    forall p :: p in s.statuses ==> s.statuses[p].revision <= next
  }

  /** What one probe of a refresh came back with. */
  datatype Probe = Deferred | Answered(result: Result)

  /** A probe that was deferred to FBS traffic changes no row. */
  function ProbeRecorded(s: Rows, tool: Tool, safeOutput: bool, probe: Probe, revision: nat): Rows {
    match probe
    case Deferred => s
    case Answered(result) => Recorded(s, ResultRow(tool, safeOutput, result), revision)
  }

  function DisabledRecorded(s: Rows, tools: seq<Tool>, revision: nat): Rows {
    if tools == [] then s
    else
      var t := DisabledRecorded(s, tools[..|tools| - 1], revision);
      var tool := tools[|tools| - 1];
      if tool.enabled then t else Recorded(t, ToolStatus(tool), revision)
  }

  function EnabledCount(tools: seq<Tool>): nat {
    if tools == [] then 0 else EnabledCount(tools[..|tools| - 1]) + if tools[|tools| - 1].enabled then 1 else 0
  }

  /** The FBS side: handleStatus and handleSet after the device call. A server without a
      recorder answers FBS and records nothing. */
  class FbsServer {
    const statusRecorder: Store?
    const safeOutput: bool

    constructor (recorder: Store?, safeOutput: bool)
      ensures statusRecorder == recorder && this.safeOutput == safeOutput
    {
      this.statusRecorder, this.safeOutput := recorder, safeOutput;
    }

    method HandleResult(tool: Tool, result: Result) returns (reported: bool)
      modifies if statusRecorder == null then {} else {statusRecorder}
      ensures statusRecorder != null ==> statusRecorder.next == old(statusRecorder.next) + 1
      ensures statusRecorder != null ==>
        statusRecorder.View() == Recorded(old(statusRecorder.View()), ResultRow(tool, safeOutput, result), statusRecorder.next)
      ensures reported == if result.Output? then result.on else safeOutput
      ensures statusRecorder != null && UpToDate(old(statusRecorder.View()), old(statusRecorder.next)) ==>
        && UpToDate(statusRecorder.View(), statusRecorder.next)
        && ShownFor(statusRecorder.View(), tool, result.Output?, reported, if result.Output? then "" else result.error,
                    statusRecorder.next)
    {
      match result {
        case Failure(error) =>
          RecordFailure(tool, error);
          reported := safeOutput;
        case Output(on) =>
          RecordSuccess(tool, on);
          reported := on;
      }
    }

    method RecordSuccess(tool: Tool, output: bool)
      modifies if statusRecorder == null then {} else {statusRecorder}
      ensures statusRecorder != null ==> statusRecorder.next == old(statusRecorder.next) + 1
      ensures statusRecorder != null ==>
        statusRecorder.View() == Recorded(old(statusRecorder.View()), SuccessRow(tool, output), statusRecorder.next)
    {
      if statusRecorder == null {
        return;
      }
      var revision := statusRecorder.NextRevision();
      statusRecorder.RecordSuccess(tool, output, revision);
    }

    method RecordFailure(tool: Tool, error: string)
      modifies if statusRecorder == null then {} else {statusRecorder}
      ensures statusRecorder != null ==> statusRecorder.next == old(statusRecorder.next) + 1
      ensures statusRecorder != null ==>
        statusRecorder.View() == Recorded(old(statusRecorder.View()), FailureRow(tool, safeOutput, error), statusRecorder.next)
    {
      if statusRecorder == null {
        return;
      }
      var revision := statusRecorder.NextRevision();
      statusRecorder.RecordFailure(tool, safeOutput, Some(error), revision);
    }
  }

  /** The admin side: statusSnapshot, refreshStatuses and the row writes of collectStatuses. */
  class AdminServer {
    const statusStore: Store
    var statusRefreshInFlight: bool

    constructor (store: Store)
      ensures statusStore == store && !statusRefreshInFlight
    {
      statusStore, statusRefreshInFlight := store, false;
    }

    /** `started` is the revision of the refresh that has to be spawned. */
    method StatusSnapshot(refreshRequested: bool) returns (rows: seq<Row>, inProgress: bool, started: Option<nat>)
      modifies this, statusStore
      ensures started.Some? <==> refreshRequested && !old(statusRefreshInFlight)
      ensures started.Some? ==> started.value == statusStore.next == old(statusStore.next) + 1
      ensures started == None ==> statusStore.next == old(statusStore.next)
      ensures inProgress == statusRefreshInFlight == (old(statusRefreshInFlight) || refreshRequested)
      ensures statusStore.View() == old(statusStore.View())
      ensures rows == Listed(statusStore.View(), statusStore.order)
    {
      started := None;
      if refreshRequested && !statusRefreshInFlight {
        statusRefreshInFlight := true;
        var revision := statusStore.NextRevision();
        started := Some(revision);
      }
      inProgress := statusRefreshInFlight;
      rows := statusStore.Snapshot();
    }

    /** The loop of collectStatuses that publishes disabled tools at once. */
    method PublishDisabled(tools: seq<Tool>, revision: nat) returns (enabledCount: nat)
      modifies statusStore
      ensures statusStore.View() == DisabledRecorded(old(statusStore.View()), tools, revision)
      ensures enabledCount == EnabledCount(tools) && statusStore.next == old(statusStore.next)
    {
      enabledCount := 0;
      for i := 0 to |tools|
        invariant statusStore.View() == DisabledRecorded(old(statusStore.View()), tools[..i], revision)
        invariant enabledCount == EnabledCount(tools[..i]) && statusStore.next == old(statusStore.next)
      {
        assert tools[..i + 1][..i] == tools[..i];
        if tools[i].enabled {
          enabledCount := enabledCount + 1;
        } else {
          statusStore.Record(ToolStatus(tools[i]), revision);
        }
      }
      assert tools[..|tools|] == tools;
    }

    /** What a worker does with the outcome of one probe. */
    method PublishProbe(tool: Tool, safeOutput: bool, probe: Probe, revision: nat)
      modifies statusStore
      ensures statusStore.View() == ProbeRecorded(old(statusStore.View()), tool, safeOutput, probe, revision)
      ensures statusStore.next == old(statusStore.next)
    {
      if probe.Deferred? {
        return;
      }
      match probe.result {
        case Failure(error) => statusStore.RecordFailure(tool, safeOutput, Some(error), revision);
        case Output(on) => statusStore.RecordSuccess(tool, on, revision);
      }
    }

    method RefreshDone()
      modifies this
      ensures !statusRefreshInFlight
    {
      statusRefreshInFlight := false;
    }
  }

  // ---------------------------------------------- what the admin page shows

  /** A deferred probe leaves every row alone. Any other shows, unless something newer is
      known, exactly what the device answered: its output, or the safe state and the error. */
  lemma ProbeShown(s: Rows, tool: Tool, safeOutput: bool, probe: Probe, revision: nat, other: int)
    requires other != tool.port
    ensures var t := ProbeRecorded(s, tool, safeOutput, probe, revision);
      && SameRowAt(s, t, other)
      && (if probe.Deferred? || (tool.port in s.statuses && revision < s.statuses[tool.port].revision) then t == s
          else if probe.result.Output? then ShownFor(t, tool, true, probe.result.on, "", revision)
          else ShownFor(t, tool, false, safeOutput, probe.result.error, revision))
  {
  }

  ghost predicate DisabledOn(tools: seq<Tool>, port: int) {
    exists i :: 0 <= i < |tools| && !tools[i].enabled && tools[i].port == port
  }

  lemma {:induction false} DisabledOnly(s: Rows, tools: seq<Tool>, revision: nat, port: int)
    requires !DisabledOn(tools, port)
    ensures SameRowAt(s, DisabledRecorded(s, tools, revision), port)
  {
    if tools != [] {
      var front, last := tools[..|tools| - 1], tools[|tools| - 1];
      assert forall i :: 0 <= i < |front| ==> front[i] == tools[i];
      DisabledOnly(s, front, revision, port);
      assert tools[|front|] == last;
    }
  }

  lemma {:induction false} StillAccepts(s: Rows, tools: seq<Tool>, revision: nat, port: int)
    ensures var t := DisabledRecorded(s, tools, revision);
      if Accepts(s, port, revision) then Accepts(t, port, revision) else SameRowAt(s, t, port)
  {
    if tools != [] {
      StillAccepts(s, tools[..|tools| - 1], revision, port);
    }
  }

  /** A refresh shows every disabled tool as off, disconnected and without error, unless
      something newer is known; it leaves the rows of all other ports alone. */
  lemma {:induction false} DisabledShown(s: Rows, tools: seq<Tool>, revision: nat, i: nat)
    requires i < |tools| && !tools[i].enabled
    requires forall j :: i < j < |tools| && !tools[j].enabled ==> tools[j].port != tools[i].port
    ensures var t, port := DisabledRecorded(s, tools, revision), tools[i].port;
      if port in s.statuses && revision < s.statuses[port].revision then SameRowAt(s, t, port)
      else ShownFor(t, tools[i], false, false, "", revision)
  {
    var front, last := tools[..|tools| - 1], tools[|tools| - 1];
    if i < |front| {
      assert forall j :: 0 <= j < |front| ==> front[j] == tools[j];
      DisabledShown(s, front, revision, i);
    } else {
      StillAccepts(s, front, revision, last.port);
    }
  }

  /** The refresh waits for as many probes as there are enabled tools. */
  lemma {:induction false} EnabledCounted(tools: seq<Tool>)
    ensures EnabledCount(tools) == |EnabledAt(tools)|
  {
    if tools != [] {
      var n := |tools| - 1;
      EnabledCounted(tools[..n]);
      assert EnabledAt(tools) == EnabledAt(tools[..n]) + if tools[n].enabled then {n} else {};
    }
  }

  function EnabledAt(tools: seq<Tool>): set<nat> {
    set k | 0 <= k < |tools| && tools[k].enabled
  }

  // -------------------------------------------------------------- interleavings

  type Id = nat

  datatype Refresh = Spawned(revision: nat) | Collecting(revision: nat) | Clearing(revision: nat) | Ended(revision: nat)

  datatype Handler = Calling | Drawn(revision: nat, row: Row) | Stored(revision: nat, row: Row)

  datatype Fleet = Fleet(rows: Rows, next: nat, inFlight: bool, refreshes: map<Id, Refresh>, handlers: map<Id, Handler>)

  datatype Label =
    | Ask(r: Id, requested: bool)      // statusSnapshot's critical section
    | Begin(r: Id)                     // the spawned goroutine starts collecting
    | Publish(r: Id, row: Row)         // one write of the refresh
    | Skip(r: Id)                      // a deferred probe
    | Collected(r: Id)
    | Clear(r: Id)                     // statusRefreshInFlight = false
    | Arrive(h: Id)                    // an FBS request calls the device
    | Draw(h: Id, row: Row)            // NextRevision after the call
    | Record(h: Id)                    // RecordSuccess or RecordFailure

  function Init(tools: seq<Tool>, safeOutput: bool): Fleet {
    Fleet(Placeholders(tools, safeOutput), 0, false, map[], map[])
  }

  predicate Enabled(s: Fleet, l: Label) {
    match l
    case Ask(r, _) => r !in s.refreshes
    case Begin(r) => r in s.refreshes && s.refreshes[r].Spawned?
    case Publish(r, _) => r in s.refreshes && s.refreshes[r].Collecting?
    case Skip(r) => r in s.refreshes && s.refreshes[r].Collecting?
    case Collected(r) => r in s.refreshes && s.refreshes[r].Collecting?
    case Clear(r) => r in s.refreshes && s.refreshes[r].Clearing?
    case Arrive(h) => h !in s.handlers
    case Draw(h, _) => h in s.handlers && s.handlers[h].Calling?
    case Record(h) => h in s.handlers && s.handlers[h].Drawn?
  }

  function Next(s: Fleet, l: Label): Fleet
    requires Enabled(s, l)
  {
    match l
    case Ask(r, requested) =>
      if requested && !s.inFlight
      then s.(inFlight := true, next := s.next + 1, refreshes := s.refreshes[r := Spawned(s.next + 1)])
      else s
    case Begin(r) => s.(refreshes := s.refreshes[r := Collecting(s.refreshes[r].revision)])
    case Publish(r, row) => s.(rows := Recorded(s.rows, row, s.refreshes[r].revision))
    case Skip(_) => s
    case Collected(r) => s.(refreshes := s.refreshes[r := Clearing(s.refreshes[r].revision)])
    case Clear(r) => s.(inFlight := false, refreshes := s.refreshes[r := Ended(s.refreshes[r].revision)])
    case Arrive(h) => s.(handlers := s.handlers[h := Calling])
    case Draw(h, row) => s.(next := s.next + 1, handlers := s.handlers[h := Drawn(s.next + 1, row)])
    case Record(h) =>
      s.(rows := Recorded(s.rows, s.handlers[h].row, s.handlers[h].revision),
         handlers := s.handlers[h := Stored(s.handlers[h].revision, s.handlers[h].row)])
  }

  datatype Run = Run(states: seq<Fleet>, labels: seq<Label>)

  ghost predicate IsRun(run: Run, tools: seq<Tool>, safeOutput: bool) {
    && |run.states| == |run.labels| + 1
    && run.states[0] == Init(tools, safeOutput)
    && forall i :: 0 <= i < |run.labels| ==>
         Enabled(run.states[i], run.labels[i]) && run.states[i + 1] == Next(run.states[i], run.labels[i])
  }

  predicate Busy(s: Fleet, r: Id) { r in s.refreshes && !s.refreshes[r].Ended? }

  /** The flag is up exactly while one refresh is unfinished. */
  ghost predicate FlightInv(s: Fleet) {
    && (forall r :: Busy(s, r) ==> s.inFlight)
    && (forall r, q :: Busy(s, r) && Busy(s, q) ==> r == q)
    && (s.inFlight ==> exists r :: Busy(s, r))
  }

  ghost predicate RevisionInv(s: Fleet) {
    && OrderInv(s.rows)
    && (forall r :: r in s.refreshes ==> s.refreshes[r].revision <= s.next)
    && (forall h :: h in s.handlers && s.handlers[h].Stored? ==>
          s.handlers[h].row.port in s.rows.statuses &&
          s.handlers[h].revision <= s.rows.statuses[s.handlers[h].row.port].revision)
  }

  ghost predicate FleetInv(s: Fleet) { FlightInv(s) && RevisionInv(s) }

  /** Recording keeps every row, lowers no revision, and leaves the port with a revision
      that is at least the recorded one. */
  lemma RecordedGrows(s: Rows, row: Row, revision: nat)
    ensures var t := Recorded(s, row, revision);
      && row.port in t.statuses && revision <= t.statuses[row.port].revision
      && (forall p :: p in s.statuses ==> p in t.statuses && s.statuses[p].revision <= t.statuses[p].revision)
  {
  }

  lemma FlightStep(s: Fleet, l: Label)
    requires FlightInv(s) && Enabled(s, l)
    ensures FlightInv(Next(s, l))
  {
    var t := Next(s, l);
    assert l.Ask? && t != s ==> Busy(t, l.r);
    assert l.Begin? || l.Collected? || l.Clear? ==> Busy(s, l.r);
    assert forall r :: Busy(t, r) ==> Busy(s, r) || (l.Ask? && r == l.r);
    assert l.Clear? ==> !Busy(t, l.r);
    assert forall r :: Busy(s, r) && !l.Clear? ==> Busy(t, r);
  }

  lemma PublishRevision(s: Fleet, t: Fleet, row: Row, revision: nat)
    requires RevisionInv(s) && t == s.(rows := Recorded(s.rows, row, revision))
    ensures RevisionInv(t)
  {
    RecordKeepsOrder(s.rows, row, revision);
    RecordedGrows(s.rows, row, revision);
  }

  lemma StoredRevision(s: Fleet, h: Id)
    requires RevisionInv(s) && h in s.handlers && s.handlers[h].Drawn?
    requires s.handlers[h].row.port in s.rows.statuses && s.handlers[h].revision <= s.rows.statuses[s.handlers[h].row.port].revision
    ensures RevisionInv(s.(handlers := s.handlers[h := Stored(s.handlers[h].revision, s.handlers[h].row)]))
  {
  }

  lemma RecordRevision(s: Fleet, h: Id)
    requires RevisionInv(s) && Enabled(s, Record(h))
    ensures RevisionInv(Next(s, Record(h)))
  {
    var row, revision := s.handlers[h].row, s.handlers[h].revision;
    var t := s.(rows := Recorded(s.rows, row, revision));
    PublishRevision(s, t, row, revision);
    RecordedGrows(s.rows, row, revision);
    StoredRevision(t, h);
  }

  lemma RevisionStep(s: Fleet, l: Label)
    requires RevisionInv(s) && Enabled(s, l)
    ensures RevisionInv(Next(s, l))
  {
    match l {
      case Publish(r, row) => PublishRevision(s, Next(s, l), row, s.refreshes[r].revision);
      case Record(h) => RecordRevision(s, h);
      case _ =>
    }
  }

  lemma FleetStep(s: Fleet, l: Label)
    requires FleetInv(s) && Enabled(s, l)
    ensures FleetInv(Next(s, l))
  {
    FlightStep(s, l);
    RevisionStep(s, l);
  }

  // ------------------------------------------------------- the main results

  lemma {:induction false} RunInv(run: Run, tools: seq<Tool>, safeOutput: bool, i: nat)
    requires IsRun(run, tools, safeOutput) && i < |run.states|
    ensures FleetInv(run.states[i])
  {
    if i == 0 {
      PlaceholdersOrder(tools, safeOutput);
    } else {
      RunInv(run, tools, safeOutput, i - 1);
      FleetStep(run.states[i - 1], run.labels[i - 1]);
    }
  }

  /** At most one refresh is unfinished, and the flag is up exactly while one is. */
  lemma SingleFlight(run: Run, tools: seq<Tool>, safeOutput: bool, i: nat, r: Id, q: Id)
    requires IsRun(run, tools, safeOutput) && i < |run.states|
    requires r in run.states[i].refreshes && q in run.states[i].refreshes
    requires run.states[i].refreshes[r].Collecting? && run.states[i].refreshes[q].Collecting?
    ensures r == q && run.states[i].inFlight
  {
    RunInv(run, tools, safeOutput, i);
    assert Busy(run.states[i], r) && Busy(run.states[i], q);
  }

  /** Counters and row revisions only grow, and a drawn revision stays with its owner. */
  ghost predicate Grows(s: Fleet, t: Fleet) {
    && s.next <= t.next
    && (forall p :: p in s.rows.statuses ==>
          p in t.rows.statuses && s.rows.statuses[p].revision <= t.rows.statuses[p].revision)
    && (forall r :: r in s.refreshes ==> r in t.refreshes && t.refreshes[r].revision == s.refreshes[r].revision)
    && (forall h :: h in s.handlers && !s.handlers[h].Calling? ==>
          h in t.handlers && !t.handlers[h].Calling? && SameResult(s.handlers[h], t.handlers[h]))
  }

  predicate SameResult(a: Handler, b: Handler)
    requires !a.Calling? && !b.Calling?
  {
    a.revision == b.revision && a.row == b.row
  }

  lemma GrowsStep(s: Fleet, l: Label)
    requires Enabled(s, l)
    ensures Grows(s, Next(s, l))
  {
    match l {
      case Publish(r, row) => RecordedGrows(s.rows, row, s.refreshes[r].revision);
      case Record(h) => RecordedGrows(s.rows, s.handlers[h].row, s.handlers[h].revision);
      case _ =>
    }
  }

  lemma {:induction false} Persists(run: Run, tools: seq<Tool>, safeOutput: bool, i: nat, j: nat)
    requires IsRun(run, tools, safeOutput) && i <= j < |run.states|
    ensures Grows(run.states[i], run.states[j])
    decreases j - i
  {
    if i < j {
      GrowsStep(run.states[i], run.labels[i]);
      Persists(run, tools, safeOutput, i + 1, j);
      GrowsTrans(run.states[i], run.states[i + 1], run.states[j]);
    }
  }

  lemma GrowsTrans(s: Fleet, t: Fleet, u: Fleet)
    requires Grows(s, t) && Grows(t, u)
    ensures Grows(s, u)
  {
  }

  /** Every revision in use has been drawn. */
  ghost predicate Bounded(s: Fleet) {
    && UpToDate(s.rows, s.next)
    && (forall r :: r in s.refreshes ==> s.refreshes[r].revision <= s.next)
    && (forall h :: Drew(s, h) ==> s.handlers[h].revision <= s.next)
  }

  /** Nobody else has the revision that handler `h` drew. */
  ghost predicate Sole(s: Fleet, h: Id)
    requires Drew(s, h)
  {
    && (forall r :: r in s.refreshes ==> s.refreshes[r].revision != s.handlers[h].revision)
    && (forall k :: Drew(s, k) && k != h ==> s.handlers[k].revision != s.handlers[h].revision)
  }

  predicate Drew(s: Fleet, h: Id) { h in s.handlers && !s.handlers[h].Calling? }

  lemma BoundedStep(s: Fleet, l: Label)
    requires Bounded(s) && Enabled(s, l)
    ensures Bounded(Next(s, l))
  {
    var t := Next(s, l);
    assert forall h :: Drew(t, h) ==> Drew(s, h) || (l.Draw? && l.h == h);
    if l.Record? {
      assert Drew(s, l.h);
    }
  }

  lemma SoleStep(s: Fleet, l: Label, h: Id)
    requires Bounded(s) && Enabled(s, l) && Drew(Next(s, l), h)
    requires Drew(s, h) ==> Sole(s, h)
    ensures Sole(Next(s, l), h)
  {
    var t := Next(s, l);
    forall k | Drew(t, k) && k != h ensures t.handlers[k].revision != t.handlers[h].revision {
      assert Drew(s, k) || (l.Draw? && l.h == k);
      assert Drew(s, h) || (l.Draw? && l.h == h);
    }
  }

  /** The row is the handler's own result, or that of a later revision. */
  predicate ShownOrNewer(s: Rows, row: Row, revision: nat) {
    && row.port in s.statuses
    && (s.statuses[row.port] == row.(revision := revision) || s.statuses[row.port].revision > revision)
  }

  lemma ShownStep(s: Fleet, l: Label, h: Id)
    requires Enabled(s, l) && h in s.handlers && s.handlers[h].Stored? && Sole(s, h)
    requires ShownOrNewer(s.rows, s.handlers[h].row, s.handlers[h].revision)
    ensures ShownOrNewer(Next(s, l).rows, s.handlers[h].row, s.handlers[h].revision)
  {
    assert Drew(s, h);
    assert l.Record? ==> Drew(s, l.h);
  }

  lemma {:induction false} BoundedRun(run: Run, tools: seq<Tool>, safeOutput: bool, i: nat)
    requires IsRun(run, tools, safeOutput) && i < |run.states|
    ensures Bounded(run.states[i])
  {
    if i == 0 {
      PlaceholdersOrder(tools, safeOutput);
    } else {
      BoundedRun(run, tools, safeOutput, i - 1);
      BoundedStep(run.states[i - 1], run.labels[i - 1]);
    }
  }

  lemma {:induction false} SoleRun(run: Run, tools: seq<Tool>, safeOutput: bool, i: nat, h: Id)
    requires IsRun(run, tools, safeOutput) && i < |run.states| && Drew(run.states[i], h)
    ensures Sole(run.states[i], h)
  {
    if i > 0 {
      BoundedRun(run, tools, safeOutput, i - 1);
      if Drew(run.states[i - 1], h) {
        SoleRun(run, tools, safeOutput, i - 1, h);
      }
      SoleStep(run.states[i - 1], run.labels[i - 1], h);
    }
  }

  /** However handlers and refreshes interleave: from the moment an FBS handler has recorded
      its result, the row of its tool is that result, until a result whose revision was
      drawn later replaces it. */
  lemma {:induction false} FbsResultShown(run: Run, tools: seq<Tool>, safeOutput: bool, i: nat, h: Id)
    requires IsRun(run, tools, safeOutput) && i < |run.states|
    requires h in run.states[i].handlers && run.states[i].handlers[h].Stored?
    ensures ShownOrNewer(run.states[i].rows, run.states[i].handlers[h].row, run.states[i].handlers[h].revision)
    ensures UpToDate(run.states[i].rows, run.states[i].next)
  {
    BoundedRun(run, tools, safeOutput, i);
    if i > 0 {
      var s, l := run.states[i - 1], run.labels[i - 1];
      if l == Record(h) {
        RecordShows(s, h);
      } else {
        FbsResultShown(run, tools, safeOutput, i - 1, h);
        SoleRun(run, tools, safeOutput, i - 1, h);
        ShownStep(s, l, h);
      }
    }
  }

  lemma RecordShows(s: Fleet, h: Id)
    requires Enabled(s, Record(h))
    ensures ShownOrNewer(Next(s, Record(h)).rows, s.handlers[h].row, s.handlers[h].revision)
  {
  }

  /** A refresh that starts before a handler draws has the lower revision. */
  lemma DrawnLater(run: Run, tools: seq<Tool>, safeOutput: bool, a: nat, b: nat, r: Id, h: Id, row: Row)
    requires IsRun(run, tools, safeOutput) && a < b < |run.labels|
    requires r in run.states[a + 1].refreshes && run.labels[b] == Draw(h, row)
    ensures h in run.states[b + 1].handlers && run.states[b + 1].handlers[h] == Drawn(run.states[b].next + 1, row)
    ensures run.states[a + 1].refreshes[r].revision < run.states[b].next + 1
  {
    RunInv(run, tools, safeOutput, a + 1);
    assert run.states[a + 1].refreshes[r].revision <= run.states[a + 1].next;
    Persists(run, tools, safeOutput, a + 1, b);
    assert run.states[b + 1] == Next(run.states[b], run.labels[b]);
  }

  /** What a handler records stays, under its revision or a later one. */
  lemma RecordedStays(run: Run, tools: seq<Tool>, safeOutput: bool, b: nat, c: nat, d: nat, h: Id, revision: nat, row: Row)
    requires IsRun(run, tools, safeOutput) && b < c < d < |run.labels| && run.labels[c] == Record(h)
    requires h in run.states[b + 1].handlers && run.states[b + 1].handlers[h] == Drawn(revision, row)
    ensures row.port in run.states[d].rows.statuses && run.states[d].rows.statuses[row.port].revision >= revision
  {
    Persists(run, tools, safeOutput, b + 1, c);
    assert run.states[c + 1] == Next(run.states[c], Record(h));
    RecordedGrows(run.states[c].rows, row, revision);
    Persists(run, tools, safeOutput, c + 1, d);
  }

  /** Refresh `r` starts at `a`; handler `h` draws its revision at `b` and records at `c`,
      later in that order. From then on no write of that refresh, disabled rows included,
      changes the row of the port that `h` recorded. */
  lemma FbsResultOutlivesRefresh(run: Run, tools: seq<Tool>, safeOutput: bool, a: nat, b: nat, c: nat, d: nat,
                                 r: Id, h: Id, row: Row, written: Row)
    requires IsRun(run, tools, safeOutput) && a < b < c < d < |run.labels|
    requires run.labels[a] == Ask(r, true) && r in run.states[a + 1].refreshes
    requires run.labels[b] == Draw(h, row)
    requires run.labels[c] == Record(h)
    requires run.labels[d] == Publish(r, written) && written.port == row.port
    ensures run.states[d + 1].rows == run.states[d].rows
    ensures row.port in run.states[d].rows.statuses
    ensures run.states[d].rows.statuses[row.port].revision > run.states[d].refreshes[r].revision
  {
    DrawnLater(run, tools, safeOutput, a, b, r, h, row);
    RecordedStays(run, tools, safeOutput, b, c, d, h, run.states[b].next + 1, row);
    Persists(run, tools, safeOutput, a + 1, d);
    assert run.states[d + 1] == Next(run.states[d], Publish(r, written));
  }
}
