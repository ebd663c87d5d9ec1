/**
  The shared status rows, one per tool port, merged by revision: a result with an
  older revision cannot overwrite a newer one for the same port.
 */
module StatusStore {
  import opened Optional
  import opened GatewayConfig

  const NOT_YET_REFRESHED := "status not yet refreshed"

  datatype Row = Row(interlockName: string, ip: string, protocol: string, port: int, switchId: int, enabled: bool,
                     connected: bool, output: bool, error: string, revision: nat)

  function ToolStatus(tool: Tool): Row {
    Row(tool.interlockName, tool.ip, ToolProtocol(tool), tool.port, tool.switchId, tool.enabled,
        false, false, "", 0)
  }

  function SuccessRow(tool: Tool, output: bool): Row {
    ToolStatus(tool).(connected := true, output := output)
  }

  function FailureRow(tool: Tool, safeOutput: bool, error: string): Row {
    ToolStatus(tool).(output := safeOutput, error := error)
  }

  function PlaceholderRow(tool: Tool, safeOutput: bool): Row {
    if tool.enabled then ToolStatus(tool).(output := safeOutput, error := NOT_YET_REFRESHED) else ToolStatus(tool)
  }

  /** The row names the tool's interlock, address, relay and protocol as configured. */
  predicate Names(row: Row, tool: Tool) {
    && row.interlockName == tool.interlockName && row.ip == tool.ip && row.port == tool.port
    && row.switchId == tool.switchId && row.enabled == tool.enabled && row.protocol == ToolProtocol(tool)
  }

  /** What the admin page shows of a device. */
  predicate Shows(row: Row, connected: bool, output: bool, error: string) {
    row.connected == connected && row.output == output && row.error == error
  }

  /** The value of the store: its rows and the order in which ports are listed. */
  datatype Rows = Rows(statuses: map<int, Row>, order: seq<int>)

  /** Whether Record lets a result of this revision through. */
  predicate Accepts(s: Rows, port: int, revision: nat) {
    port in s.statuses ==> s.statuses[port].revision <= revision
  }

  function Recorded(s: Rows, row: Row, revision: nat): Rows {
    if !Accepts(s, row.port, revision) then s
    else Rows(s.statuses[row.port := row.(revision := revision)],
              if row.port in s.statuses then s.order else s.order + [row.port])
  }

  function Placed(s: Rows, row: Row): Rows {
    Rows(s.statuses[row.port := row], if row.port in s.statuses then s.order else s.order + [row.port])
  }

  function Placeholders(tools: seq<Tool>, safeOutput: bool): Rows {
    if tools == [] then Rows(map[], [])
    else Placed(Placeholders(tools[..|tools| - 1], safeOutput), PlaceholderRow(tools[|tools| - 1], safeOutput))
  }

  function Listed(s: Rows, ports: seq<int>): seq<Row> {
    if ports == [] then []
    else Listed(s, ports[..|ports| - 1]) +
         (if ports[|ports| - 1] in s.statuses then [s.statuses[ports[|ports| - 1]]] else [])
  }

  class Store {
    var statuses: map<int, Row>
    var order: seq<int>
    var next: nat

    function View(): Rows
      reads this
    {
      Rows(statuses, order)
    }

    constructor (tools: seq<Tool>, safeOutput: bool)
      ensures View() == Placeholders(tools, safeOutput) && next == 0
    {
      statuses, order, next := map[], [], 0;
      new;
      for i := 0 to |tools|
        invariant View() == Placeholders(tools[..i], safeOutput) && next == 0
      {
        assert tools[..i + 1][..i] == tools[..i];
        var row := ToolStatus(tools[i]);
        if tools[i].enabled {
          row := row.(output := safeOutput);
          row := row.(error := NOT_YET_REFRESHED);
        }
        if tools[i].port !in statuses {
          order := order + [tools[i].port];
        }
        statuses := statuses[tools[i].port := row];
      }
      assert tools[..|tools|] == tools;
    }

    method NextRevision() returns (revision: nat)
      modifies this
      ensures revision == next == old(next) + 1 && View() == old(View())
    {
      next := next + 1;
      revision := next;
    }

    method Record(row: Row, revision: nat)
      modifies this
      ensures View() == Recorded(old(View()), row, revision) && next == old(next)
    {
      if row.port in statuses && revision < statuses[row.port].revision {
        return;
      }
      if row.port !in statuses {
        order := order + [row.port];
      }
      statuses := statuses[row.port := row.(revision := revision)];
    }

    method RecordSuccess(tool: Tool, output: bool, revision: nat)
      modifies this
      ensures View() == Recorded(old(View()), SuccessRow(tool, output), revision) && next == old(next)
    {
      var row := ToolStatus(tool);
      row := row.(connected := true);
      row := row.(output := output);
      Record(row, revision);
    }

    method RecordFailure(tool: Tool, safeOutput: bool, error: Option<string>, revision: nat)
      modifies this
      ensures next == old(next)
      ensures View() ==
        Recorded(old(View()), FailureRow(tool, safeOutput, if error.Some? then error.value else ""), revision)
    {
      var row := ToolStatus(tool);
      row := row.(output := safeOutput);
      if error.Some? {
        row := row.(error := error.value);
      }
      Record(row, revision);
    }

    method Snapshot() returns (rows: seq<Row>)
      ensures rows == Listed(View(), order)
    {
      rows := [];
      for i := 0 to |order|
        invariant rows == Listed(View(), order[..i])
      {
        assert order[..i + 1][..i] == order[..i];
        if order[i] in statuses {
          rows := rows + [statuses[order[i]]];
        }
      }
      assert order[..|order|] == order;
    }
  }

  // --------------------------------------------------------- sequences of calls

  datatype Call = Call(row: Row, revision: nat)

  function RecordAll(s: Rows, calls: seq<Call>): Rows {
    if calls == [] then s
    else Recorded(RecordAll(s, calls[..|calls| - 1]), calls[|calls| - 1].row, calls[|calls| - 1].revision)
  }

  /** `k` is the last call for the port among those of highest revision. */
  ghost predicate IsWinner(calls: seq<Call>, port: int, k: nat) {
    && k < |calls| && calls[k].row.port == port
    && (forall j :: 0 <= j < |calls| && calls[j].row.port == port ==> calls[j].revision <= calls[k].revision)
    && (forall j :: k < j < |calls| && calls[j].row.port == port ==> calls[j].revision < calls[k].revision)
  }

  /** Rows as New leaves them: no result has been recorded yet. */
  ghost predicate Unrecorded(s: Rows) {
    forall p :: p in s.statuses ==> s.statuses[p].revision == 0
  }

  /** After any calls, a port's row is that of the last call among those of highest
      revision, and a port nobody recorded keeps its row. */
  lemma {:induction false} LastOfHighestWins(s: Rows, calls: seq<Call>, port: int) returns (k: Option<nat>)
    requires Unrecorded(s)
    ensures k == None <==> forall j :: 0 <= j < |calls| ==> calls[j].row.port != port
    ensures k.Some? ==> IsWinner(calls, port, k.value)
    ensures k.Some? ==> port in RecordAll(s, calls).statuses
    ensures k.Some? ==> RecordAll(s, calls).statuses[port] == calls[k.value].row.(revision := calls[k.value].revision)
    ensures k == None ==> (port in RecordAll(s, calls).statuses <==> port in s.statuses)
    ensures k == None && port in s.statuses ==> RecordAll(s, calls).statuses[port] == s.statuses[port]
  {
    if calls == [] {
      k := None;
    } else {
      var front, last := calls[..|calls| - 1], calls[|calls| - 1];
      k := LastOfHighestWins(s, front, port);
      assert forall j :: 0 <= j < |front| ==> front[j] == calls[j];
      if last.row.port == port && Accepts(RecordAll(s, front), port, last.revision) {
        k := Some(|front|);
      }
    }
  }

  ghost predicate DistinctRevisions(calls: seq<Call>) {
    forall i, j :: 0 <= i < j < |calls| && calls[i].row.port == calls[j].row.port ==> calls[i].revision != calls[j].revision
  }

  lemma MemberOf(a: seq<Call>, b: seq<Call>, k: nat) returns (j: nat)
    requires multiset(a) == multiset(b) && k < |a|
    ensures j < |b| && b[j] == a[k]
  {
    assert a[k] in multiset(a);
    assert a[k] in multiset(b);
    j :| 0 <= j < |b| && b[j] == a[k];
  }

  /** When no two results for a port share a revision, the final rows do not depend on
      the order in which the results arrive. */
  lemma ArrivalOrderIrrelevant(s: Rows, a: seq<Call>, b: seq<Call>)
    requires Unrecorded(s) && DistinctRevisions(a) && DistinctRevisions(b) && multiset(a) == multiset(b)
    ensures RecordAll(s, a).statuses == RecordAll(s, b).statuses
  {
    var x, y := RecordAll(s, a).statuses, RecordAll(s, b).statuses;
    forall port
      ensures port in x <==> port in y
      ensures port in x && port in y ==> x[port] == y[port]
    {
      SameRow(s, a, b, port);
    }
  }

  lemma SameRow(s: Rows, a: seq<Call>, b: seq<Call>, port: int)
    requires Unrecorded(s) && DistinctRevisions(b) && multiset(a) == multiset(b)
    ensures var x, y := RecordAll(s, a).statuses, RecordAll(s, b).statuses;
      (port in x <==> port in y) && (port in x && port in y ==> x[port] == y[port])
  {
    var k := LastOfHighestWins(s, a, port);
    var m := LastOfHighestWins(s, b, port);
    if k.Some? {
      var j := MemberOf(a, b, k.value);
      if m.Some? {
        var i := MemberOf(b, a, m.value);
        assert b[j].revision == b[m.value].revision;
      }
    } else if m.Some? {
      var i := MemberOf(b, a, m.value);
    }
  }

  // ------------------------------------------------------ what the rows show

  /** A row of the tool with this content and revision is shown under the tool's port. */
  predicate ShownFor(s: Rows, tool: Tool, connected: bool, output: bool, error: string, revision: nat) {
    && tool.port in s.statuses
    && Names(s.statuses[tool.port], tool) && Shows(s.statuses[tool.port], connected, output, error)
    && s.statuses[tool.port].revision == revision
  }

  predicate SameRowAt(s: Rows, t: Rows, port: int) {
    (port in s.statuses <==> port in t.statuses) && (port in s.statuses ==> t.statuses[port] == s.statuses[port])
  }

  /** A success that is not older than what is known shows a connected device with the
      output and no error; an older one changes nothing, and neither touches other ports. */
  lemma SuccessShown(s: Rows, tool: Tool, output: bool, revision: nat, other: int)
    requires other != tool.port
    ensures var t := Recorded(s, SuccessRow(tool, output), revision);
      && SameRowAt(s, t, other)
      && (if tool.port in s.statuses && revision < s.statuses[tool.port].revision then t == s
          else ShownFor(t, tool, true, output, "", revision))
  {
  }

  /** A failure shows a disconnected device in its safe state with the error. */
  lemma FailureShown(s: Rows, tool: Tool, safeOutput: bool, error: string, revision: nat, other: int)
    requires other != tool.port
    ensures var t := Recorded(s, FailureRow(tool, safeOutput, error), revision);
      && SameRowAt(s, t, other)
      && (if tool.port in s.statuses && revision < s.statuses[tool.port].revision then t == s
          else ShownFor(t, tool, false, safeOutput, error, revision))
  {
  }

  /** Before any result, an enabled tool is shown in its safe state as not yet refreshed and
      a disabled one off and without error; of tools on one port the last one is shown. */
  lemma {:induction false} PlaceholderShown(tools: seq<Tool>, safeOutput: bool, i: nat)
    requires i < |tools| && forall j :: i < j < |tools| ==> tools[j].port != tools[i].port
    ensures var s := Placeholders(tools, safeOutput);
      if tools[i].enabled then ShownFor(s, tools[i], false, safeOutput, "status not yet refreshed", 0)
      else ShownFor(s, tools[i], false, false, "", 0)
  {
    if i < |tools| - 1 {
      PlaceholderShown(tools[..|tools| - 1], safeOutput, i);
    }
  }

  // --------------------------------------------------------------- the listing

  ghost predicate OrderInv(s: Rows) {
    && (forall i, j :: 0 <= i < j < |s.order| ==> s.order[i] != s.order[j])
    && (forall p :: p in s.statuses <==> p in s.order)
    && (forall p :: p in s.statuses ==> s.statuses[p].port == p)
  }

  lemma RecordKeepsOrder(s: Rows, row: Row, revision: nat)
    requires OrderInv(s)
    ensures OrderInv(Recorded(s, row, revision)) && s.order <= Recorded(s, row, revision).order
    ensures OrderInv(Placed(s, row)) && s.order <= Placed(s, row).order
  {
  }

  /** The first occurrence of every configured port, in configuration order. */
  function FirstPorts(tools: seq<Tool>): seq<int> {
    if tools == [] then []
    else
      var front, p := FirstPorts(tools[..|tools| - 1]), tools[|tools| - 1].port;
      if p in front then front else front + [p]
  }

  lemma {:induction false} PlaceholdersOrder(tools: seq<Tool>, safeOutput: bool)
    ensures var s := Placeholders(tools, safeOutput); OrderInv(s) && Unrecorded(s) && s.order == FirstPorts(tools)
  {
    if tools != [] {
      var front, last := tools[..|tools| - 1], tools[|tools| - 1];
      PlaceholdersOrder(front, safeOutput);
      RecordKeepsOrder(Placeholders(front, safeOutput), PlaceholderRow(last, safeOutput), 0);
    }
  }

  /** After New and any calls, every known port is listed exactly once, the configured
      ports first and in configuration order. */
  lemma {:induction false} ListingOrder(tools: seq<Tool>, safeOutput: bool, calls: seq<Call>)
    ensures var s := RecordAll(Placeholders(tools, safeOutput), calls);
      && OrderInv(s)
      && FirstPorts(tools) <= s.order
      && (forall p :: p in s.statuses <==> p in FirstPorts(tools) || exists k :: 0 <= k < |calls| && calls[k].row.port == p)
  {
    if calls == [] {
      PlaceholdersOrder(tools, safeOutput);
    } else {
      var front, last := calls[..|calls| - 1], calls[|calls| - 1];
      ListingOrder(tools, safeOutput, front);
      var s := RecordAll(Placeholders(tools, safeOutput), front);
      RecordKeepsOrder(s, last.row, last.revision);
      assert forall k :: 0 <= k < |front| ==> front[k] == calls[k];
      assert calls[|front|] == last;
    }
  }

  /** Snapshot shows one row per known port, in listing order. */
  lemma {:induction false} SnapshotComplete(s: Rows, n: nat)
    requires OrderInv(s) && n <= |s.order|
    ensures |Listed(s, s.order[..n])| == n
    ensures forall i :: 0 <= i < n ==> Listed(s, s.order[..n])[i] == s.statuses[s.order[i]]
  {
    if n > 0 {
      var ports, front := s.order[..n], s.order[..n - 1];
      SnapshotComplete(s, n - 1);
      assert ports[..n - 1] == front && ports[n - 1] == s.order[n - 1];
      assert s.order[n - 1] in s.order;
      assert Listed(s, ports) == Listed(s, front) + [s.statuses[s.order[n - 1]]];
    }
  }
}
