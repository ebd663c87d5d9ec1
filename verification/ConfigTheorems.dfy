/** What replacing and loading the configuration guarantee, over every database and every
    configuration. */
module ConfigTheorems {
  import opened Optional
  import opened Text
  import opened GatewayConfig
  import opened ConfigStore

  // ---------------------------------------------------------- identities

  lemma FreshCountStep(stored: set<ToolRow>, tools: seq<Tool>, j: nat)
    requires j < |tools|
    ensures FreshCount(stored, tools[..j]) <= FreshCount(stored, tools[..j + 1])
    ensures Resolve(stored, tools[j]) == None ==> FreshCount(stored, tools[..j]) < FreshCount(stored, tools[..j + 1])
  {
    SliceSnoc(tools, j);
  }

  lemma {:induction false} FreshCountGrows(stored: set<ToolRow>, tools: seq<Tool>, i: nat, j: nat)
    requires i < j <= |tools| && Resolve(stored, tools[i]) == None
    ensures FreshCount(stored, tools[..i]) < FreshCount(stored, tools[..j])
    decreases j
  {
    FreshCountStep(stored, tools, j - 1);
    if i < j - 1 {
      FreshCountGrows(stored, tools, i, j - 1);
    }
  }

  /** A fresh id differs from every stored id and from every other assigned id. */
  lemma FreshIds(db: Db, tools: seq<Tool>, i: nat, j: nat)
    requires i < |tools| && j < |tools| && i != j && Resolve(Stored(db.tools), tools[i]) == None
    ensures forall r :: r in db.tools ==> AssignedId(Stored(db.tools), tools, i) > r.id
    ensures AssignedId(Stored(db.tools), tools, i) != AssignedId(Stored(db.tools), tools, j)
  {
    var stored := Stored(db.tools);
    assert forall r :: r in db.tools ==> r in stored;
    if Resolve(stored, tools[j]) == None {
      if i < j { FreshCountGrows(stored, tools, i, j); } else { FreshCountGrows(stored, tools, j, i); }
    }
  }

  lemma SameIdSameRow(rows: seq<ToolRow>, a: ToolRow, b: ToolRow)
    requires Constrained(rows) && a in rows && b in rows && a.id == b.id
    ensures a == b
  {
    if a != b {
      PortsDiffer(rows, a, b);
    }
  }

  /** Two incoming tools receive the same id exactly when both continue the same stored row. */
  lemma SameIdExactly(db: Db, tools: seq<Tool>, i: nat, j: nat)
    requires Constrained(db.tools) && i < |tools| && j < |tools| && i != j
    ensures var stored := Stored(db.tools);
      AssignedId(stored, tools, i) == AssignedId(stored, tools, j) <==>
      Resolve(stored, tools[i]).Some? && Resolve(stored, tools[i]) == Resolve(stored, tools[j])
  {
    var stored := Stored(db.tools);
    var a, b := Resolve(stored, tools[i]), Resolve(stored, tools[j]);
    if a == None {
      FreshIds(db, tools, i, j);
    } else if b == None {
      FreshIds(db, tools, j, i);
    } else if a.value.id == b.value.id {
      SameIdSameRow(db.tools, a.value, b.value);
    }
  }

  // ------------------------------------------------------ when replace commits

  /** What the column checks demand of one tool beyond ValidateTool. */
  predicate Storable(t: Tool) {
    && 1 <= SqlLength(TrimSpace(t.interlockName)) <= 16
    && SqlLength(TrimSpace(t.ip)) > 0
    && PasswordOk(t.password)
  }

  predicate SafeStateKnown(c: Config) {
    var s := ToLower(TrimSpace(c.defaults.safeStateOnError));
    s == "on" || s == "off"
  }

  /** No two tools share a trimmed name or address, and no two continue the same row. */
  ghost predicate Separate(stored: set<ToolRow>, tools: seq<Tool>) {
    forall i, j :: 0 <= i < j < |tools| ==> SeparatePair(stored, tools[i], tools[j])
  }

  ghost predicate SeparatePair(stored: set<ToolRow>, t: Tool, u: Tool) {
    && TrimSpace(t.interlockName) != TrimSpace(u.interlockName)
    && TrimSpace(t.ip) != TrimSpace(u.ip)
    && !(Resolve(stored, t).Some? && Resolve(stored, t) == Resolve(stored, u))
  }

  ghost predicate Admissible(db: Db, c: Config) {
    var n := ApplyDefaults(c);
    && Valid(n) && SafeStateKnown(n)
    && (forall i :: 0 <= i < |n.tools| ==> Storable(n.tools[i]))
    && Separate(Stored(db.tools), n.tools)
  }

  lemma CheckIsStorable(id: int, sortOrder: nat, t: Tool, createdAt: string, now: string)
    requires ValidateTool(t) == None
    ensures CheckTool(MakeRow(id, sortOrder, t, createdAt, now)) <==> Storable(t)
  {
    TrimResult(t.interlockName);
    TrimResult(t.ip);
    SqlTrimTrimmed(TrimSpace(t.interlockName));
    SqlTrimTrimmed(TrimSpace(t.ip));
  }

  lemma ConflictIsNotSeparate(db: Db, tools: seq<Tool>, i: nat, j: nat, now: string)
    requires Constrained(db.tools) && i < j < |tools| && tools[i].port != tools[j].port
    ensures var stored := Stored(db.tools);
      !Conflict(NewRow(stored, tools, i, now), NewRow(stored, tools, j, now)) <==> SeparatePair(stored, tools[i], tools[j])
  {
    SameIdExactly(db, tools, i, j);
  }

  lemma LowerLower(s: string)
    ensures ToLower(ToLower(TrimSpace(s))) == ToLower(TrimSpace(s))
  {
    LowerIdempotent(TrimSpace(s));
  }

  /** The new rows satisfy the schema exactly when the tools are storable and separate. */
  lemma RowsConstrainedExactly(db: Db, tools: seq<Tool>, now: string)
    requires Constrained(db.tools) && DistinctPorts(tools) && forall i :: 0 <= i < |tools| ==> ValidateTool(tools[i]) == None
    ensures Constrained(NewRows(Stored(db.tools), tools, now)) <==>
      (forall i :: 0 <= i < |tools| ==> Storable(tools[i])) && Separate(Stored(db.tools), tools)
  {
    var stored := Stored(db.tools);
    var rows := NewRows(stored, tools, now);
    forall i | 0 <= i < |tools| ensures CheckTool(rows[i]) <==> Storable(tools[i]) {
      var r := rows[i];
      CheckIsStorable(r.id, i, tools[i], r.createdAt, now);
    }
    forall i, j | 0 <= i < j < |tools|
      ensures !Conflict(rows[i], rows[j]) <==> SeparatePair(stored, tools[i], tools[j])
    {
      ConflictIsNotSeparate(db, tools, i, j, now);
    }
  }

  /** Replace commits exactly the admissible configurations, and rolls back on all others. */
  lemma CommitsExactly(db: Db, c: Config, now: string)
    requires Constrained(db.tools)
    ensures Replaced(db, c, now).Some? <==> Admissible(db, c)
  {
    var n := ApplyDefaults(c);
    LowerLower(n.defaults.safeStateOnError);
    if Valid(n) {
      FirstErrorNone(n.tools);
      RowsConstrainedExactly(db, n.tools, now);
    }
  }

  // ---------------------------------------------------------- the normal form

  function NormalTool(t: Tool): Tool {
    t.(interlockName := TrimSpace(t.interlockName), ip := TrimSpace(t.ip), protocol := ToolProtocol(t))
  }

  function NormalTools(tools: seq<Tool>): seq<Tool> {
    seq(|tools|, i requires 0 <= i < |tools| => NormalTool(tools[i]))
  }

  /** Defaults filled in, names and addresses trimmed, protocols and safe state in lower case. */
  function NormalForm(c: Config): Config {
    var n := ApplyDefaults(c);
    n.(defaults := n.defaults.(safeStateOnError := ToLower(TrimSpace(n.defaults.safeStateOnError))),
       tools := NormalTools(n.tools))
  }

  lemma ProtocolIdempotent(s: string)
    ensures ProtocolOf(ProtocolOf(s)) == ProtocolOf(s)
  {
    TrimResult(s);
    var p := ToLower(TrimSpace(s));
    LowerTrimmed(TrimSpace(s));
    LowerIdempotent(TrimSpace(s));
    TrimTrimmed(p);
    TrimTrimmed("http");
    assert ToLower("http") == "http";
  }

  lemma NormalToolValid(t: Tool)
    requires ValidateTool(t) == None
    ensures ValidateTool(NormalTool(t)) == None
    ensures ToolProtocol(NormalTool(t)) == ToolProtocol(t)
  {
    TrimIdempotent(t.interlockName);
    TrimIdempotent(t.ip);
    ProtocolIdempotent(t.protocol);
    if Contains(TrimSpace(t.ip), "://") {
      TrimContains(t.ip, "://");
    }
  }

  lemma NewRowNormal(stored: set<ToolRow>, tools: seq<Tool>, i: nat, now: string)
    requires i < |tools| && ValidateTool(tools[i]) == None
    ensures NormalRow(NewRow(stored, tools, i, now))
    ensures ToolOf(NewRow(stored, tools, i, now)) == NormalTool(tools[i])
  {
    NormalToolValid(tools[i]);
    TrimIdempotent(tools[i].interlockName);
    TrimIdempotent(tools[i].ip);
  }

  lemma StoredTools(stored: set<ToolRow>, tools: seq<Tool>, now: string)
    requires forall i :: 0 <= i < |tools| ==> ValidateTool(tools[i]) == None
    ensures ToolsOf(NewRows(stored, tools, now)) == NormalTools(tools)
  {
    var rows := NewRows(stored, tools, now);
    forall i | 0 <= i < |tools| ensures ToolOf(rows[i]) == NormalTools(tools)[i] {
      NewRowNormal(stored, tools, i, now);
    }
  }

  lemma SafeStateNormal(s: string)
    ensures ToLower(TrimSpace(ToLower(TrimSpace(s)))) == ToLower(TrimSpace(s))
  {
    TrimResult(s);
    LowerTrimmed(TrimSpace(s));
    TrimTrimmed(ToLower(TrimSpace(s)));
    LowerIdempotent(TrimSpace(s));
  }

  predicate AllHttp(tools: seq<Tool>) {
    forall t :: t in tools ==> ToolProtocol(t) != "https"
  }

  lemma AllHttpAlike(a: seq<Tool>, b: seq<Tool>)
    requires |a| == |b| && forall i :: 0 <= i < |a| ==> ToolProtocol(a[i]) == ToolProtocol(b[i])
    requires AllHttp(a)
    ensures AllHttp(b)
  {
    forall t | t in b ensures ToolProtocol(t) != "https" {
      var i :| 0 <= i < |b| && b[i] == t;
      assert a[i] in a;
    }
  }

  /** Normalising the tools does not change whether TLS material is missing. */
  lemma TlsNormal(c: Config, n: Config)
    requires n.tools == NormalTools(c.tools) && n.defaults.shellyTls == c.defaults.shellyTls
    requires forall i :: 0 <= i < |c.tools| ==> ValidateTool(c.tools[i]) == None
    requires ValidateTls(c) == None
    ensures ValidateTls(n) == None
  {
    if AllHttp(c.tools) {
      forall i | 0 <= i < |c.tools| ensures ToolProtocol(c.tools[i]) == ToolProtocol(n.tools[i]) {
        NormalToolValid(c.tools[i]);
      }
      AllHttpAlike(c.tools, n.tools);
    }
  }

  lemma ReplacedConfig(db: Db, c: Config, now: string)
    requires Replaced(db, c, now).Some?
    ensures var after := Replaced(db, c, now).value;
      after.settings.Some? && ConfigOf(after.settings.value, after.tools) == NormalForm(c)
  {
    var n := ApplyDefaults(c);
    FirstErrorNone(n.tools);
    StoredTools(Stored(db.tools), n.tools, now);
  }

  /** Every commit leaves a database that satisfies the invariant. */
  lemma ReplaceKeeps(db: Db, c: Config, now: string)
    requires Replaced(db, c, now).Some?
    ensures DbInv(Replaced(db, c, now).value)
  {
    var n := ApplyDefaults(c);
    var after := Replaced(db, c, now).value;
    FirstErrorNone(n.tools);
    forall i | 0 <= i < |after.tools| ensures NormalRow(after.tools[i]) && after.tools[i].sortOrder == i {
      NewRowNormal(Stored(db.tools), n.tools, i, now);
    }
    SafeStateNormal(n.defaults.safeStateOnError);
    ReplacedConfig(db, c, now);
    TlsNormal(n, NormalForm(c));
  }

  // ------------------------------------------------------------------ loading

  lemma {:induction false} OrderedAlready(rows: seq<ToolRow>)
    requires forall i, j :: 0 <= i < j < |rows| ==> rows[i].sortOrder <= rows[j].sortOrder
    ensures OrderBy(rows) == rows
  {
    if rows != [] {
      OrderedAlready(rows[1..]);
      assert rows == [rows[0]] + rows[1..];
    }
  }

  lemma RowValid(r: ToolRow)
    requires CheckTool(r) && NormalRow(r)
    ensures ValidateTool(ToolOf(r)) == None
  {
  }

  lemma RowsValid(rows: seq<ToolRow>)
    requires Constrained(rows) && forall i :: 0 <= i < |rows| ==> NormalRow(rows[i])
    ensures FirstError(ToolsOf(rows)) == None
  {
    var tools := ToolsOf(rows);
    forall i | 0 <= i < |tools| ensures ValidateTool(tools[i]) == None {
      RowValid(rows[i]);
    }
    FirstErrorNone(tools);
  }

  lemma RowPortsDistinct(rows: seq<ToolRow>)
    requires Constrained(rows)
    ensures DistinctPorts(ToolsOf(rows))
  {
    forall i, j | 0 <= i < j < |rows| ensures ToolsOf(rows)[i].port != ToolsOf(rows)[j].port {
      assert !Conflict(rows[i], rows[j]);
    }
  }

  lemma RowsOrdered(rows: seq<ToolRow>)
    requires forall i :: 0 <= i < |rows| ==> rows[i].sortOrder == i
    ensures OrderBy(rows) == rows
  {
    OrderedAlready(rows);
  }

  lemma DefaultsThere(s: Settings, rows: seq<ToolRow>)
    requires CheckSettings(s) && s.bind != ""
    ensures ApplyDefaults(ConfigOf(s, rows)) == ConfigOf(s, rows)
  {
    assert ToLower(s.safeState) != "";
  }

  /** Loading never rejects a database that satisfies the invariant, and changes nothing in it. */
  lemma LoadAccepts(db: Db)
    requires DbInv(db) && db.settings.Some?
    ensures LoadOf(db) == Loaded.Loaded(ConfigOf(db.settings.value, db.tools))
    ensures Valid(ConfigOf(db.settings.value, db.tools))
  {
    RowsOrdered(db.tools);
    RowsValid(db.tools);
    RowPortsDistinct(db.tools);
    DefaultsThere(db.settings.value, db.tools);
  }

  /** After a commit, loading returns the normal form of the configuration. */
  lemma LoadAfterReplace(db: Db, c: Config, now: string)
    requires Replaced(db, c, now).Some?
    ensures LoadOf(Replaced(db, c, now).value) == Loaded.Loaded(NormalForm(c))
  {
    ReplaceKeeps(db, c, now);
    ReplacedConfig(db, c, now);
    LoadAccepts(Replaced(db, c, now).value);
  }

  datatype Attempt = Attempt(c: Config, now: string)

  /** The database after any number of replacements, the rejected ones rolled back. */
  ghost function After(attempts: seq<Attempt>): Db {
    if attempts == [] then Db(None, [])
    else
      var before, a := After(attempts[..|attempts| - 1]), attempts[|attempts| - 1];
      var r := Replaced(before, a.c, a.now);
      if r.Some? then r.value else before
  }

  /** The attempt that committed last. */
  ghost function LastCommitted(attempts: seq<Attempt>): Option<Config> {
    if attempts == [] then None
    else
      var before, a := attempts[..|attempts| - 1], attempts[|attempts| - 1];
      if Replaced(After(before), a.c, a.now).Some? then Some(a.c) else LastCommitted(before)
  }

  /** Over every history of replacements, Load returns the normal form of the one that
      committed last, and is uninitialised only when none did. */
  lemma {:induction false} LoadsLastCommitted(attempts: seq<Attempt>)
    ensures DbInv(After(attempts))
    ensures LoadOf(After(attempts)) ==
      match LastCommitted(attempts)
      case None => Uninitialized
      case Some(c) => Loaded.Loaded(NormalForm(c))
  {
    if attempts != [] {
      var before, a := attempts[..|attempts| - 1], attempts[|attempts| - 1];
      LoadsLastCommitted(before);
      if Replaced(After(before), a.c, a.now).Some? {
        ReplaceKeeps(After(before), a.c, a.now);
        LoadAfterReplace(After(before), a.c, a.now);
      }
    }
  }

  // ------------------------------------------------- storing what was loaded

  /** A stored row is the one its own tool continues. */
  lemma ResolvesToItself(rows: seq<ToolRow>, r: ToolRow)
    requires Constrained(rows) && r in rows
    ensures Resolve(Stored(rows), ToolOf(r)) == Some(r)
  {
    var stored := Stored(rows);
    assert AtPort(stored, r.port, r);
    forall q | AtPort(stored, r.port, q) ensures q == r {
      if q != r {
        PortsDiffer(rows, q, r);
      }
    }
  }

  function Touched(rows: seq<ToolRow>, now: string): seq<ToolRow> {
    seq(|rows|, i requires 0 <= i < |rows| => rows[i].(updatedAt := now))
  }

  lemma RestoredRow(db: Db, i: nat, now: string)
    requires DbInv(db) && i < |db.tools|
    ensures NewRow(Stored(db.tools), ToolsOf(db.tools), i, now) == db.tools[i].(updatedAt := now)
  {
    ResolvesToItself(db.tools, db.tools[i]);
    assert NormalRow(db.tools[i]) && db.tools[i].sortOrder == i;
  }

  lemma TouchedConstrained(rows: seq<ToolRow>, now: string)
    requires Constrained(rows)
    ensures Constrained(Touched(rows, now))
  {
    var touched := Touched(rows, now);
    forall i | 0 <= i < |rows| ensures CheckTool(touched[i]) {
      assert CheckTool(rows[i]);
    }
    forall i, j | 0 <= i < j < |rows| ensures !Conflict(touched[i], touched[j]) {
      assert !Conflict(rows[i], rows[j]);
    }
  }

  lemma RestoredRows(db: Db, now: string)
    requires DbInv(db)
    ensures NewRows(Stored(db.tools), ToolsOf(db.tools), now) == Touched(db.tools, now)
    ensures Constrained(Touched(db.tools, now))
  {
    forall i: nat | i < |db.tools|
      ensures NewRow(Stored(db.tools), ToolsOf(db.tools), i, now) == db.tools[i].(updatedAt := now)
    {
      RestoredRow(db, i, now);
    }
    TouchedConstrained(db.tools, now);
  }

  /** Storing what was loaded commits, and keeps every column but the update time. */
  lemma RestoreKeepsRows(db: Db, c: Config, now: string)
    requires DbInv(db) && LoadOf(db) == Loaded.Loaded(c)
    ensures Replaced(db, c, now) == Some(Db(Some(db.settings.value.(updatedAt := now)), Touched(db.tools, now)))
  {
    LoadAccepts(db);
    RestoredRows(db, now);
    assert ToLower(db.settings.value.safeState) != "";
    assert ApplyDefaults(c) == c;
  }

  // ------------------------------------- what a caller can see, spelled out

  /** The tool that is loaded for a stored one. */
  ghost predicate LoadedTool(l: Tool, t: Tool) {
    && l.interlockName == TrimSpace(t.interlockName) && l.ip == TrimSpace(t.ip)
    && l.protocol == (if TrimSpace(t.protocol) == "" then "http" else ToLower(TrimSpace(t.protocol)))
    && l.port == t.port && l.switchId == t.switchId && l.enabled == t.enabled
    && l.username == t.username && l.password == t.password
  }

  lemma NormalToolLoaded(t: Tool)
    ensures LoadedTool(NormalTool(t), t)
  {
  }

  lemma BlankLower(s: string)
    ensures ToLower(s) == "" <==> s == ""
  {
  }

  /** The settings that are loaded for given ones. */
  ghost predicate LoadedSettings(l: Config, c: Config) {
    && l.bind == (if c.bind == "" then "0.0.0.0" else c.bind)
    && l.defaults.timeoutMs == (if c.defaults.timeoutMs <= 0 then 3000 else c.defaults.timeoutMs)
    && l.defaults.safeStateOnError ==
         (if c.defaults.safeStateOnError == "" then "off" else ToLower(TrimSpace(c.defaults.safeStateOnError)))
    && (l.defaults.safeStateOnError == "on" || l.defaults.safeStateOnError == "off")
    && l.defaults.shellyTls == c.defaults.shellyTls
  }

  lemma OffStays(s: string)
    requires s == "off"
    ensures ToLower(TrimSpace(s)) == s
  {
    OffNormal(s);
  }

  /** What is loaded after a commit, column by column: an empty bind address becomes 0.0.0.0, a
      timeout that is not positive 3000 ms, an empty safe state off; names and addresses are
      trimmed, protocols and safe state trimmed and in lower case, an empty protocol is http,
      and every other value and the order of the tools are as they were given. */
  lemma LoadedLiterally(db: Db, c: Config, now: string)
    requires Replaced(db, c, now).Some?
    ensures var l := LoadOf(Replaced(db, c, now).value);
      && l.Loaded? && LoadedSettings(l.c, c)
      && |l.c.tools| == |c.tools| && forall i :: 0 <= i < |c.tools| ==> LoadedTool(l.c.tools[i], c.tools[i])
  {
    LoadAfterReplace(db, c, now);
    OffStays("off");
    LowerLower(ApplyDefaults(c).defaults.safeStateOnError);
    forall i | 0 <= i < |c.tools| ensures LoadedTool(NormalForm(c).tools[i], c.tools[i]) {
      NormalToolLoaded(c.tools[i]);
    }
  }

  /** The only stored row whose name is that of the tool, letter case and outer spaces aside. */
  ghost predicate OnlyNamesake(rows: seq<ToolRow>, t: Tool, r: ToolRow) {
    && r in rows && ToLower(TrimSpace(r.name)) == ToLower(TrimSpace(t.interlockName))
    && forall q :: q in rows && ToLower(TrimSpace(q.name)) == ToLower(TrimSpace(t.interlockName)) ==> q == r
  }

  /** The stored row at the tool's port, where no sole namesake decides. */
  ghost predicate OnlyByPort(rows: seq<ToolRow>, t: Tool, r: ToolRow) {
    (forall q :: !OnlyNamesake(rows, t, q)) && r in rows && r.port == t.port
  }

  lemma NamesakeIs(rows: seq<ToolRow>, t: Tool, r: ToolRow)
    ensures OnlyNamesake(rows, t, r) <==> SoleName(Stored(rows), Key(t.interlockName), r)
  {
  }

  lemma ResolveNamesake(rows: seq<ToolRow>, t: Tool, r: ToolRow)
    requires OnlyNamesake(rows, t, r)
    ensures Resolve(Stored(rows), t) == Some(r)
  {
    NamesakeIs(rows, t, r);
  }

  lemma ResolvePort(rows: seq<ToolRow>, t: Tool, r: ToolRow)
    requires Constrained(rows) && OnlyByPort(rows, t, r)
    ensures Resolve(Stored(rows), t) == Some(r)
  {
    forall q ensures !SoleName(Stored(rows), Key(t.interlockName), q) {
      NamesakeIs(rows, t, q);
    }
    assert AtPort(Stored(rows), t.port, r);
    forall q | AtPort(Stored(rows), t.port, q) ensures q == r {
      if q != r {
        PortsDiffer(rows, q, r);
      }
    }
  }

  lemma ResolveNothing(rows: seq<ToolRow>, t: Tool)
    requires (forall q :: !OnlyNamesake(rows, t, q)) && forall q :: q in rows ==> q.port != t.port
    ensures Resolve(Stored(rows), t) == None
  {
    forall q ensures !SoleName(Stored(rows), Key(t.interlockName), q) {
      NamesakeIs(rows, t, q);
    }
  }

  /** Identity of every committed tool: it takes over id and creation time of the only stored
      row of its name; failing that, of the row at its port; failing both it gets a new id,
      above all stored ones, and is created now. The position is the tool's, the update time
      the commit's. */
  lemma IdentityExactly(db: Db, c: Config, now: string, i: nat, r: ToolRow)
    requires Constrained(db.tools) && Replaced(db, c, now).Some? && i < |c.tools|
    ensures var t, rows := c.tools[i], Replaced(db, c, now).value.tools;
      && |rows| == |c.tools| && rows[i].sortOrder == i && rows[i].updatedAt == now
      && (OnlyNamesake(db.tools, t, r) || OnlyByPort(db.tools, t, r) ==> rows[i].id == r.id && rows[i].createdAt == r.createdAt)
      && ((forall q :: !OnlyNamesake(db.tools, t, q)) && (forall q :: q in db.tools ==> q.port != t.port) ==>
            rows[i].createdAt == now && forall q :: q in db.tools ==> rows[i].id > q.id)
  {
    var t := c.tools[i];
    if OnlyNamesake(db.tools, t, r) {
      ResolveNamesake(db.tools, t, r);
    } else if OnlyByPort(db.tools, t, r) {
      ResolvePort(db.tools, t, r);
    } else if (forall q :: !OnlyNamesake(db.tools, t, q)) && (forall q :: q in db.tools ==> q.port != t.port) {
      ResolveNothing(db.tools, t);
      NewIdAbove(db.tools, c.tools, i);
    }
  }

  lemma NewIdAbove(rows: seq<ToolRow>, tools: seq<Tool>, i: nat)
    requires i < |tools| && Resolve(Stored(rows), tools[i]) == None
    ensures forall q :: q in rows ==> AssignedId(Stored(rows), tools, i) > q.id
  {
    assert forall q :: q in rows ==> q in Stored(rows);
  }

  /** What is asked of one tool. */
  predicate ToolOk(t: Tool) {
    && TrimSpace(t.interlockName) != "" && TrimSpace(t.ip) != "" && !Contains(t.ip, "://")
    && 8081 <= t.port <= 8981 && t.switchId >= 0
    && (TrimSpace(t.protocol) == "" || ToLower(TrimSpace(t.protocol)) == "http" || ToLower(TrimSpace(t.protocol)) == "https")
  }

  lemma ToolOkExactly(t: Tool)
    ensures ValidateTool(t) == None <==> ToolOk(t)
  {
    BlankLower(TrimSpace(t.protocol));
  }

  /** What HTTPS asks of the settings. */
  ghost predicate TlsOk(c: Config) {
    (exists t :: t in c.tools && ToLower(TrimSpace(t.protocol)) == "https") ==>
      && TrimSpace(c.defaults.shellyTls.serverCaFile) != ""
      && TrimSpace(c.defaults.shellyTls.clientCertFile) != ""
      && TrimSpace(c.defaults.shellyTls.clientKeyFile) != ""
  }

  lemma HttpsExactly(t: Tool)
    ensures ToolProtocol(t) == "https" <==> ToLower(TrimSpace(t.protocol)) == "https"
  {
  }

  lemma TlsOkExactly(c: Config)
    ensures ValidateTls(c) == None <==> TlsOk(c)
  {
    forall t | t in c.tools ensures ToolProtocol(t) == "https" <==> ToLower(TrimSpace(t.protocol)) == "https" {
      HttpsExactly(t);
    }
  }

  /** Which configurations are committed, in the terms of the one who submits them. */
  ghost predicate Acceptable(db: Db, c: Config) {
    && (forall i :: 0 <= i < |c.tools| ==> ToolOk(c.tools[i]) && Storable(c.tools[i]))
    && DistinctPorts(c.tools) && TlsOk(c)
    && (c.defaults.safeStateOnError == "" || SafeStateKnown(c))
    && Separate(Stored(db.tools), c.tools)
  }

  lemma DefaultsKeepTools(c: Config)
    ensures ApplyDefaults(c).tools == c.tools && ApplyDefaults(c).defaults.shellyTls == c.defaults.shellyTls
    ensures SafeStateKnown(ApplyDefaults(c)) <==> c.defaults.safeStateOnError == "" || SafeStateKnown(c)
  {
    OffStays("off");
  }

  lemma AllToolsOk(tools: seq<Tool>)
    ensures FirstError(tools) == None <==> forall i :: 0 <= i < |tools| ==> ToolOk(tools[i])
  {
    FirstErrorNone(tools);
    forall i | 0 <= i < |tools| ensures ValidateTool(tools[i]) == None <==> ToolOk(tools[i]) {
      ToolOkExactly(tools[i]);
    }
  }

  lemma TlsOkKept(c: Config, n: Config)
    requires n.tools == c.tools && n.defaults.shellyTls == c.defaults.shellyTls
    ensures TlsOk(n) <==> TlsOk(c)
  {
  }

  /** Replace commits exactly the acceptable configurations. */
  lemma AcceptedExactly(db: Db, c: Config, now: string)
    requires Constrained(db.tools)
    ensures Replaced(db, c, now).Some? <==> Acceptable(db, c)
  {
    CommitsExactly(db, c, now);
    DefaultsKeepTools(c);
    AllToolsOk(c.tools);
    TlsOkExactly(ApplyDefaults(c));
    TlsOkKept(c, ApplyDefaults(c));
  }

  const ROW := ToolRow(1, 0, "a", "h", "http", 8081, 0, None, None, true, "t0", "t0")
  const NO_TLS := ShellyTls("", "", "")
  const STORED := Db(Some(Settings("0.0.0.0", 3000, "off", NO_TLS, "t0")), [ROW])
  const MOVED := Tool("a", "p", "http", 8082, 0, None, None, true)
  const TAKING := Tool("b", "q", "http", 8081, 0, None, None, true)
  const COLLIDING := Config("0.0.0.0", Defaults(3000, "off", NO_TLS), [MOVED, TAKING])

  lemma HttpNormal()
    ensures ProtocolOf("http") == "http"
  {
    TrimTrimmed("http");
    assert ToLower("http") == "http";
  }

  lemma LetterNormal(s: string)
    requires |s| == 1 && 'a' <= s[0] <= 'z'
    ensures TrimSpace(s) == SqlTrim(s) == s && SqlLength(s) == 1 && !Contains(s, "://")
  {
    TrimTrimmed(s);
    SqlTrimTrimmed(s);
    assert s[1..] == [];
    assert BeforeNul(s) == [s[0]] + BeforeNul(s[1..]);
  }

  lemma ExampleRow()
    ensures CheckTool(ROW) && NormalRow(ROW)
  {
    HttpNormal();
    LetterNormal(ROW.name);
    LetterNormal(ROW.ip);
  }

  lemma OneRowStored(db: Db, s: Settings, r: ToolRow)
    requires db == Db(Some(s), [r]) && CheckTool(r) && NormalRow(r) && r.sortOrder == 0 && ToolProtocol(ToolOf(r)) == "http"
    requires s.timeoutMs > 0 && s.bind != ""
    requires ToLower(s.safeState) == s.safeState == TrimSpace(s.safeState) && (s.safeState == "on" || s.safeState == "off")
    ensures DbInv(db)
  {
    assert forall t :: t in ToolsOf([r]) ==> t == ToolOf(r);
    assert ValidateTls(ConfigOf(s, [r])) == None;
  }

  lemma OffNormal(s: string)
    requires s == "off"
    ensures ToLower(s) == s == TrimSpace(s)
  {
    LowerFixed(s);
    TrimTrimmed(s);
  }

  lemma ExampleStored()
    ensures DbInv(STORED)
  {
    ExampleRow();
    HttpNormal();
    OffNormal("off");
    OneRowStored(STORED, STORED.settings.value, ROW);
  }

  lemma ExampleResolves()
    ensures Resolve(Stored(STORED.tools), MOVED) == Resolve(Stored(STORED.tools), TAKING) == Some(ROW)
  {
    var stored := Stored(STORED.tools);
    assert stored == {ROW};
    assert Key("a") == "a" && Key("b") == "b";
    assert SoleName(stored, "a", ROW);
    assert AtPort(stored, 8081, ROW);
  }

  lemma ExampleTool(t: Tool)
    requires t == MOVED || t == TAKING
    ensures ValidateTool(t) == None && ToolProtocol(t) == "http"
  {
    HttpNormal();
    LetterNormal(t.interlockName);
    LetterNormal(t.ip);
  }

  lemma TwoToolsValid(c: Config, t: Tool, u: Tool)
    requires c.tools == [t, u] && t.port != u.port
    requires ValidateTool(t) == None && ValidateTool(u) == None
    requires ToolProtocol(t) == ToolProtocol(u) == "http"
    ensures Valid(c)
  {
    FirstErrorNone(c.tools);
    assert forall x :: x in c.tools ==> x == t || x == u;
  }

  lemma ExampleValid()
    ensures Valid(COLLIDING) && ApplyDefaults(COLLIDING) == COLLIDING
  {
    ExampleTool(MOVED);
    ExampleTool(TAKING);
    TwoToolsValid(COLLIDING, MOVED, TAKING);
  }

  /** Two tools of a valid configuration that continue one stored row, one by name and the
      other by port: the transaction fails on the shared id. */
  lemma CollisionRollsBack(now: string)
    ensures DbInv(STORED) && Valid(ApplyDefaults(COLLIDING))
    ensures Resolve(Stored(STORED.tools), MOVED) == Resolve(Stored(STORED.tools), TAKING) == Some(ROW)
    ensures Replaced(STORED, COLLIDING, now) == None
  {
    ExampleStored();
    ExampleResolves();
    ExampleValid();
    assert !SeparatePair(Stored(STORED.tools), COLLIDING.tools[0], COLLIDING.tools[1]);
    CommitsExactly(STORED, COLLIDING, now);
  }
}
