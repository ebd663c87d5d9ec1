/**
  The configuration database: a settings row and a table of tools with the constraints of
  schema version 1, replaced as a whole in one transaction and loaded back.
 */
module ConfigStore {
  import opened Optional
  import opened Text
  import opened GatewayConfig

  datatype Settings = Settings(bind: string, timeoutMs: int, safeState: string, tls: ShellyTls, updatedAt: string)

  datatype ToolRow = ToolRow(id: int, sortOrder: int, name: string, ip: string, protocol: string, port: int, switchId: int,
                             username: Option<string>, password: Option<string>, enabled: bool,
                             createdAt: string, updatedAt: string)

  datatype Db = Db(settings: Option<Settings>, tools: seq<ToolRow>)

  // ------------------------------------------------------------ constraints

  /** SQLite's length counts up to the first NUL. */
  function BeforeNul(s: string): (t: string)
    ensures t <= s
  {
    if s == [] || s[0] == '\0' then [] else [s[0]] + BeforeNul(s[1..])
  }

  function SqlLength(s: string): nat { |BeforeNul(s)| }

  function SqlTrimLeft(s: string): string {
    if s == [] || s[0] != ' ' then s else SqlTrimLeft(s[1..])
  }

  function SqlTrimRight(s: string): string {
    if s == [] || s[|s| - 1] != ' ' then s else SqlTrimRight(s[..|s| - 1])
  }

  /** SQLite's trim removes blanks only. */
  function SqlTrim(s: string): string { SqlTrimRight(SqlTrimLeft(s)) }

  lemma SqlTrimTrimmed(s: string)
    requires Trimmed(s)
    ensures SqlTrim(s) == s
  {
  }

  predicate AlphaNumeric(c: char) { '0' <= c <= '9' || 'A' <= c <= 'Z' || 'a' <= c <= 'z' }

  predicate PasswordOk(p: Option<string>) {
    p == None ||
    (SqlLength(p.value) == 32 && forall i :: 0 <= i < SqlLength(p.value) ==> AlphaNumeric(p.value[i]))
  }

  predicate CheckSettings(s: Settings) {
    s.timeoutMs > 0 && (ToLower(s.safeState) == "on" || ToLower(s.safeState) == "off")
  }

  predicate CheckTool(r: ToolRow) {
    && r.sortOrder >= 0
    && r.name == SqlTrim(r.name) && 1 <= SqlLength(r.name) <= 16
    && SqlLength(SqlTrim(r.ip)) > 0
    && (r.protocol == "http" || r.protocol == "https")
    && MIN_TOOL_PORT <= r.port <= MAX_TOOL_PORT
    && r.switchId >= 0
    && PasswordOk(r.password)
  }

  /** Two rows that a primary key or a UNIQUE constraint forbids together. */
  predicate Conflict(a: ToolRow, b: ToolRow) {
    a.id == b.id || a.sortOrder == b.sortOrder || a.name == b.name || a.ip == b.ip || a.port == b.port
  }

  predicate Insertable(rows: seq<ToolRow>, r: ToolRow) {
    CheckTool(r) && forall i :: 0 <= i < |rows| ==> !Conflict(rows[i], r)
  }

  /** What the schema guarantees of the table. */
  ghost predicate Constrained(rows: seq<ToolRow>) {
    (forall i :: 0 <= i < |rows| ==> CheckTool(rows[i])) &&
    (forall i, j :: 0 <= i < j < |rows| ==> !Conflict(rows[i], rows[j]))
  }

  // ------------------------------------------------------- stable identities

  function Key(name: string): string { ToLower(TrimSpace(name)) }

  ghost function Stored(rows: seq<ToolRow>): set<ToolRow> { set r | r in rows }

  /** The only stored row with that normalised name. */
  ghost predicate SoleName(stored: set<ToolRow>, key: string, r: ToolRow) {
    r in stored && Key(r.name) == key && forall q :: q in stored && Key(q.name) == key ==> q == r
  }

  ghost predicate AtPort(stored: set<ToolRow>, port: int, r: ToolRow) {
    r in stored && r.port == port
  }

  /** The stored row an incoming tool continues: by a name that is unique, else by port. */
  ghost function Resolve(stored: set<ToolRow>, t: Tool): (r: Option<ToolRow>)
    ensures r.Some? ==> r.value in stored
  {
    if exists r :: SoleName(stored, Key(t.interlockName), r) then
      var r :| SoleName(stored, Key(t.interlockName), r); Some(r)
    else if exists r :: AtPort(stored, t.port, r) then
      var r :| AtPort(stored, t.port, r); Some(r)
    else None
  }

  /** One more than every stored id, and at least one. */
  ghost predicate IsNextId(stored: set<ToolRow>, n: int) {
    n >= 1 && (forall r :: r in stored ==> r.id < n) && (n == 1 || exists r :: r in stored && r.id == n - 1)
  }

  ghost function NextId(stored: set<ToolRow>): (n: int)
    ensures IsNextId(stored, n)
  {
    if stored == {} then 1
    else
      var r :| r in stored;
      var m := NextId(stored - {r});
      if r.id >= m then r.id + 1 else m
  }

  ghost function FreshCount(stored: set<ToolRow>, tools: seq<Tool>): nat {
    if tools == [] then 0
    else FreshCount(stored, tools[..|tools| - 1]) + if Resolve(stored, tools[|tools| - 1]) == None then 1 else 0
  }

  /** The id that the i-th tool receives. */
  ghost function AssignedId(stored: set<ToolRow>, tools: seq<Tool>, i: nat): int
    requires i < |tools|
  {
    match Resolve(stored, tools[i])
    case Some(r) => r.id
    case None => NextId(stored) + FreshCount(stored, tools[..i])
  }

  function MakeRow(id: int, sortOrder: int, t: Tool, createdAt: string, now: string): ToolRow {
    ToolRow(id, sortOrder, TrimSpace(t.interlockName), TrimSpace(t.ip), ToolProtocol(t), t.port, t.switchId,
            t.username, t.password, t.enabled, createdAt, now)
  }

  ghost function NewRow(stored: set<ToolRow>, tools: seq<Tool>, i: nat, now: string): ToolRow
    requires i < |tools|
  {
    var r := Resolve(stored, tools[i]);
    MakeRow(AssignedId(stored, tools, i), i, tools[i], if r.Some? then r.value.createdAt else now, now)
  }

  ghost function NewRows(stored: set<ToolRow>, tools: seq<Tool>, now: string): seq<ToolRow> {
    seq(|tools|, i requires 0 <= i < |tools| => NewRow(stored, tools, i, now))
  }

  function SettingsOf(c: Config, now: string): Settings {
    Settings(c.bind, c.defaults.timeoutMs, ToLower(TrimSpace(c.defaults.safeStateOnError)), c.defaults.shellyTls, now)
  }

  /** The database after replace has committed; None when it rolls back instead. */
  ghost function Replaced(db: Db, c: Config, now: string): Option<Db> {
    var n := ApplyDefaults(c);
    var rows := NewRows(Stored(db.tools), n.tools, now);
    if Valid(n) && CheckSettings(SettingsOf(n, now)) && Constrained(rows) then Some(Db(Some(SettingsOf(n, now)), rows))
    else None
  }

  // ------------------------------------------------------------------ loading

  function InsertByOrder(r: ToolRow, rows: seq<ToolRow>): seq<ToolRow> {
    if rows == [] || r.sortOrder <= rows[0].sortOrder then [r] + rows else [rows[0]] + InsertByOrder(r, rows[1..])
  }

  /** SELECT ... ORDER BY sort_order. */
  function OrderBy(rows: seq<ToolRow>): seq<ToolRow> {
    if rows == [] then [] else InsertByOrder(rows[0], OrderBy(rows[1..]))
  }

  function ToolOf(r: ToolRow): Tool {
    Tool(r.name, r.ip, r.protocol, r.port, r.switchId, r.username, r.password, r.enabled)
  }

  function ToolsOf(rows: seq<ToolRow>): (ts: seq<Tool>)
    ensures |ts| == |rows| && forall i :: 0 <= i < |rows| ==> ts[i] == ToolOf(rows[i])
  {
    seq(|rows|, i requires 0 <= i < |rows| => ToolOf(rows[i]))
  }

  function ConfigOf(s: Settings, rows: seq<ToolRow>): Config {
    Config(s.bind, Defaults(s.timeoutMs, s.safeState, s.tls), ToolsOf(rows))
  }

  datatype Loaded = Uninitialized | Invalid | Loaded(c: Config)

  ghost function LoadOf(db: Db): Loaded {
    if db.settings == None then Uninitialized
    else
      var c := ApplyDefaults(ConfigOf(db.settings.value, OrderBy(db.tools)));
      if Valid(c) then Loaded.Loaded(c) else Invalid
  }

  /** What Replace keeps of the database beyond the schema. */
  ghost predicate NormalRow(r: ToolRow) {
    && r.name == TrimSpace(r.name) && r.name != ""
    && r.ip == TrimSpace(r.ip) && r.ip != "" && !Contains(r.ip, "://")
    && r.protocol == ProtocolOf(r.protocol)
  }

  ghost predicate DbInv(db: Db) {
    && Constrained(db.tools)
    && (forall i :: 0 <= i < |db.tools| ==> NormalRow(db.tools[i]) && db.tools[i].sortOrder == i)
    && (db.settings == None ==> db.tools == [])
    && (db.settings.Some? ==>
          && CheckSettings(db.settings.value) && db.settings.value.bind != ""
          && db.settings.value.safeState == ToLower(TrimSpace(db.settings.value.safeState))
          && ValidateTls(ConfigOf(db.settings.value, db.tools)) == None)
  }

  // ------------------------------------------------------------- the object

  function KeysOf(rows: seq<ToolRow>): (ks: seq<string>)
    ensures |ks| == |rows|
  {
    seq(|rows|, i requires 0 <= i < |rows| => Key(rows[i].name))
  }

  lemma KeysAt(rows: seq<ToolRow>)
    ensures forall i :: 0 <= i < |rows| ==> KeysOf(rows)[i] == Key(rows[i].name)
  {
  }

  function Occurrences(keys: seq<string>, key: string): nat {
    if keys == [] then 0 else Occurrences(keys[..|keys| - 1], key) + if keys[|keys| - 1] == key then 1 else 0
  }

  lemma {:induction false} OccursOnce(keys: seq<string>, key: string)
    ensures Occurrences(keys, key) > 0 <==> key in keys
    ensures Occurrences(keys, key) > 1 <==> exists i, j :: 0 <= i < j < |keys| && keys[i] == keys[j] == key
  {
    if keys != [] {
      var front := keys[..|keys| - 1];
      OccursOnce(front, key);
      assert forall i :: 0 <= i < |front| ==> front[i] == keys[i];
      if keys[|front|] == key && key in front {
        var i :| 0 <= i < |front| && front[i] == key;
        assert keys[i] == keys[|front|] == key;
      }
    }
  }

  ghost predicate DistinctRows(rows: seq<ToolRow>) {
    forall i, j :: 0 <= i < j < |rows| ==> rows[i] != rows[j]
  }

  lemma SoleCountsOnce(rows: seq<ToolRow>, key: string, r: ToolRow)
    requires DistinctRows(rows) && SoleName(Stored(rows), key, r)
    ensures Occurrences(KeysOf(rows), key) == 1
  {
    var keys := KeysOf(rows);
    KeysAt(rows);
    OccursOnce(keys, key);
    var k :| 0 <= k < |rows| && rows[k] == r;
    assert keys[k] == key;
    forall i | 0 <= i < |keys| && keys[i] == key ensures i == k {
      assert rows[i] in Stored(rows);
    }
  }

  lemma SharedCountsMore(rows: seq<ToolRow>, key: string, r: ToolRow, q: ToolRow)
    requires r in rows && q in rows && q != r && Key(r.name) == Key(q.name) == key
    ensures Occurrences(KeysOf(rows), key) > 1
  {
    var keys := KeysOf(rows);
    KeysAt(rows);
    OccursOnce(keys, key);
    var k :| 0 <= k < |rows| && rows[k] == r;
    var i :| 0 <= i < |rows| && rows[i] == q;
    assert keys[k] == keys[i] == key;
  }

  /** The counting of the code finds exactly the sole names. */
  lemma CountFindsSole(rows: seq<ToolRow>, key: string, r: ToolRow)
    requires DistinctRows(rows) && r in rows && Key(r.name) == key
    ensures Occurrences(KeysOf(rows), key) == 1 <==> SoleName(Stored(rows), key, r)
  {
    if SoleName(Stored(rows), key, r) {
      SoleCountsOnce(rows, key, r);
    } else {
      var q :| q in rows && Key(q.name) == key && q != r;
      SharedCountsMore(rows, key, r, q);
    }
  }

  /** What a query without ORDER BY returns: every row once, in any order. */
  ghost predicate IsQueryResult(order: seq<ToolRow>, tools: seq<ToolRow>) {
    Stored(order) == Stored(tools) && DistinctRows(order)
  }

  lemma PortsDiffer(tools: seq<ToolRow>, a: ToolRow, b: ToolRow)
    requires Constrained(tools) && a in tools && b in tools && a != b
    ensures !Conflict(a, b)
  {
    var i :| 0 <= i < |tools| && tools[i] == a;
    var j :| 0 <= j < |tools| && tools[j] == b;
    assert !Conflict(tools[if i < j then i else j], tools[if i < j then j else i]);
  }

  /** The maps that replace builds from the stored rows it has read. */
  datatype Identities = Identities(byPort: map<int, ToolRow>, nameCount: map<string, nat>, byName: map<string, ToolRow>, nextId: int)

  ghost predicate PortIndex(byPort: map<int, ToolRow>, rows: seq<ToolRow>) {
    && (forall r :: r in rows ==> r.port in byPort)
    && (forall p :: p in byPort ==> byPort[p] in rows && byPort[p].port == p)
  }

  ghost predicate NameIndex(byName: map<string, ToolRow>, rows: seq<ToolRow>) {
    && (forall r :: r in rows ==> Key(r.name) in byName)
    && (forall k :: k in byName ==> byName[k] in rows && Key(byName[k].name) == k)
  }

  ghost predicate CountIndex(nameCount: map<string, nat>, keys: seq<string>) {
    && (forall k :: k in nameCount <==> k in keys)
    && (forall k :: k in nameCount ==> nameCount[k] == Occurrences(keys, k))
  }

  ghost predicate Indexed(x: Identities, rows: seq<ToolRow>) {
    && PortIndex(x.byPort, rows) && NameIndex(x.byName, rows) && CountIndex(x.nameCount, KeysOf(rows))
    && x.nextId == NextId(Stored(rows))
  }

  /** Adding one row to the maps, as the body of the loop does. */
  function AddIdentity(x: Identities, r: ToolRow, key: string): Identities {
    Identities(x.byPort[r.port := r],
               x.nameCount[key := (if key in x.nameCount then x.nameCount[key] else 0) + 1],
               x.byName[key := r],
               if r.id >= x.nextId then r.id + 1 else x.nextId)
  }

  lemma NextIdUnique(stored: set<ToolRow>, n: int, m: int)
    requires IsNextId(stored, n) && IsNextId(stored, m)
    ensures n == m
  {
  }

  lemma NextIdStep(rows: seq<ToolRow>, r: ToolRow)
    ensures var n := NextId(Stored(rows)); NextId(Stored(rows + [r])) == if r.id >= n then r.id + 1 else n
  {
    var n := NextId(Stored(rows));
    var all := Stored(rows + [r]);
    assert all == Stored(rows) + {r};
    assert r in all;
    if n != 1 {
      var q :| q in Stored(rows) && q.id == n - 1;
      assert q in all;
    }
    NextIdUnique(all, if r.id >= n then r.id + 1 else n, NextId(all));
  }

  lemma {:induction false} CountStep(nameCount: map<string, nat>, keys: seq<string>, key: string)
    requires CountIndex(nameCount, keys)
    ensures CountIndex(nameCount[key := (if key in nameCount then nameCount[key] else 0) + 1], keys + [key])
  {
    var more := keys + [key];
    assert more[..|keys|] == keys;
    assert forall k :: k in more <==> k in keys || k == key;
    OccursOnce(keys, key);
  }

  lemma PortStep(byPort: map<int, ToolRow>, rows: seq<ToolRow>, r: ToolRow)
    requires PortIndex(byPort, rows)
    ensures PortIndex(byPort[r.port := r], rows + [r])
  {
    assert forall q :: q in rows + [r] <==> q in rows || q == r;
  }

  lemma NameStep(byName: map<string, ToolRow>, rows: seq<ToolRow>, r: ToolRow, key: string)
    requires NameIndex(byName, rows) && key == Key(r.name)
    ensures NameIndex(byName[key := r], rows + [r])
  {
    assert forall q :: q in rows + [r] <==> q in rows || q == r;
  }

  lemma KeysSnoc(rows: seq<ToolRow>, r: ToolRow)
    ensures KeysOf(rows + [r]) == KeysOf(rows) + [Key(r.name)]
  {
    KeysAt(rows);
    KeysAt(rows + [r]);
  }

  lemma AddKeepsPorts(x: Identities, rows: seq<ToolRow>, r: ToolRow, key: string)
    requires Indexed(x, rows) && key == Key(r.name)
    ensures PortIndex(AddIdentity(x, r, key).byPort, rows + [r])
  {
    PortStep(x.byPort, rows, r);
  }

  lemma AddKeepsNames(x: Identities, rows: seq<ToolRow>, r: ToolRow, key: string)
    requires Indexed(x, rows) && key == Key(r.name)
    ensures NameIndex(AddIdentity(x, r, key).byName, rows + [r])
  {
    NameStep(x.byName, rows, r, key);
  }

  lemma AddKeepsCounts(x: Identities, rows: seq<ToolRow>, r: ToolRow, key: string)
    requires Indexed(x, rows) && key == Key(r.name)
    ensures CountIndex(AddIdentity(x, r, key).nameCount, KeysOf(rows + [r]))
  {
    CountStep(x.nameCount, KeysOf(rows), key);
    KeysSnoc(rows, r);
  }

  lemma AddKeepsNextId(x: Identities, rows: seq<ToolRow>, r: ToolRow, key: string)
    requires Indexed(x, rows) && key == Key(r.name)
    ensures AddIdentity(x, r, key).nextId == NextId(Stored(rows + [r]))
  {
    NextIdStep(rows, r);
  }

  lemma AddKeepsIndexed(x: Identities, rows: seq<ToolRow>, r: ToolRow, key: string)
    requires Indexed(x, rows) && key == Key(r.name)
    ensures Indexed(AddIdentity(x, r, key), rows + [r])
  {
    AddKeepsPorts(x, rows, r, key);
    AddKeepsNames(x, rows, r, key);
    AddKeepsCounts(x, rows, r, key);
    AddKeepsNextId(x, rows, r, key);
  }

  /** Looking a name up by count and map finds the sole row of that name, if there is one. */
  lemma NameLookup(x: Identities, rows: seq<ToolRow>, key: string)
    requires NameIndex(x.byName, rows) && CountIndex(x.nameCount, KeysOf(rows)) && DistinctRows(rows)
    ensures var found := key in x.nameCount && x.nameCount[key] == 1;
      && (found ==> key in x.byName && SoleName(Stored(rows), key, x.byName[key]))
      && (!found ==> forall r :: !SoleName(Stored(rows), key, r))
  {
    var keys := KeysOf(rows);
    KeysAt(rows);
    if key in x.nameCount {
      var k :| 0 <= k < |keys| && keys[k] == key;
      assert rows[k] in rows && Key(rows[k].name) == key;
      CountFindsSole(rows, key, x.byName[key]);
    }
    forall r | SoleName(Stored(rows), key, r) ensures key in x.nameCount && x.nameCount[key] == 1 {
      CountFindsSole(rows, key, r);
      var k :| 0 <= k < |rows| && rows[k] == r;
      assert keys[k] == key;
    }
  }

  /** Looking a port up finds the only stored row at that port. */
  lemma PortLookup(byPort: map<int, ToolRow>, order: seq<ToolRow>, tools: seq<ToolRow>, port: int)
    requires PortIndex(byPort, order) && IsQueryResult(order, tools) && Constrained(tools)
    ensures forall r :: AtPort(Stored(tools), port, r) <==> port in byPort && r == byPort[port]
  {
    assert forall r :: r in order <==> r in Stored(order);
    forall r | AtPort(Stored(tools), port, r) ensures port in byPort && r == byPort[port] {
      if r != byPort[port] {
        PortsDiffer(tools, r, byPort[port]);
      }
    }
  }

  /** The rows by name and by port determine the resolution. */
  lemma ResolveIs(stored: set<ToolRow>, t: Tool, named: Option<ToolRow>, ported: Option<ToolRow>)
    requires if named.Some? then SoleName(stored, Key(t.interlockName), named.value)
             else forall r :: !SoleName(stored, Key(t.interlockName), r)
    requires forall r :: AtPort(stored, t.port, r) <==> ported == Some(r)
    ensures Resolve(stored, t) == if named.Some? then named else ported
  {
    if ported.Some? {
      assert AtPort(stored, t.port, ported.value);
    }
  }

  /** The look-up of one incoming tool in the maps. */
  function Lookup(x: Identities, t: Tool): Option<ToolRow> {
    var key := Key(t.interlockName);
    if key in x.nameCount && x.nameCount[key] == 1 && key in x.byName then Some(x.byName[key])
    else if t.port in x.byPort then Some(x.byPort[t.port])
    else None
  }

  /** The row found through the maps is the row the tool resolves to. */
  lemma LookupResolves(x: Identities, order: seq<ToolRow>, tools: seq<ToolRow>, t: Tool)
    requires Indexed(x, order) && IsQueryResult(order, tools) && Constrained(tools)
    ensures Lookup(x, t) == Resolve(Stored(tools), t)
  {
    var stored, key := Stored(tools), Key(t.interlockName);
    NameLookup(x, order, key);
    PortLookup(x.byPort, order, tools, t.port);
    ResolveIs(stored, t, if key in x.nameCount && x.nameCount[key] == 1 then Some(x.byName[key]) else None,
              if t.port in x.byPort then Some(x.byPort[t.port]) else None);
  }

  /** The maps give every tool its stored row, and the next id. */
  ghost predicate Finds(x: Identities, stored: set<ToolRow>) {
    x.nextId == NextId(stored) && forall t :: Lookup(x, t) == Resolve(stored, t)
  }

  lemma IndexedFinds(x: Identities, order: seq<ToolRow>, tools: seq<ToolRow>)
    requires Indexed(x, order) && IsQueryResult(order, tools) && Constrained(tools)
    ensures Finds(x, Stored(tools))
  {
    forall t ensures Lookup(x, t) == Resolve(Stored(tools), t) {
      LookupResolves(x, order, tools, t);
    }
  }

  const NoIdentities := Identities(map[], map[], map[], 1)

  lemma IndexedEmpty()
    ensures Indexed(NoIdentities, [])
  {
  }

  lemma SliceSnoc<T>(s: seq<T>, i: nat)
    requires i < |s|
    ensures s[..i + 1] == s[..i] + [s[i]] && s[..i + 1][..i] == s[..i]
  {
  }

  lemma FullSlice<T>(s: seq<T>)
    ensures s[..|s|] == s
  {
  }

  class Store {
    var settings: Option<Settings>
    var tools: seq<ToolRow>

    function View(): Db
      reads this
    {
      Db(settings, tools)
    }

    constructor ()
      ensures View() == Db(None, []) && DbInv(View())
    {
      settings, tools := None, [];
    }

    /** replace: `order` is what the identity query returns and `commitOk` whether the final
        commit succeeds. The new table is built aside, so an early return is a rollback. */
    method Replace(c: Config, now: string, order: seq<ToolRow>, commitOk: bool) returns (ok: bool)
      requires Constrained(tools) && IsQueryResult(order, tools)
      modifies this
      ensures ok <==> commitOk && Replaced(old(View()), c, now).Some?
      ensures ok ==> Replaced(old(View()), c, now) == Some(View())
      ensures !ok ==> View() == old(View())
    {
      var n := ApplyDefaults(c);
      var e := Validate(n);
      if e.Some? {
        return false;
      }
      var row := SettingsOf(n, now);
      if !CheckSettings(row) {
        return false;
      }
      var x := BuildIdentities(order);
      var rows, inserted := InsertTools(n.tools, x, now);
      if !inserted || !commitOk {
        return false;
      }
      settings, tools := Some(row), rows;
      ok := true;
    }

    /** The loop over the rows that were stored before the transaction. */
    method BuildIdentities(order: seq<ToolRow>) returns (x: Identities)
      requires IsQueryResult(order, tools) && Constrained(tools)
      ensures Finds(x, Stored(tools))
    {
      x := NoIdentities;
      IndexedEmpty();
      for i := 0 to |order|
        invariant Indexed(x, order[..i])
      {
        AddKeepsIndexed(x, order[..i], order[i], Key(order[i].name));
        SliceSnoc(order, i);
        x := AddIdentity(x, order[i], Key(order[i].name));
      }
      assert order[..|order|] == order;
      IndexedFinds(x, order, tools);
    }

    /** The loop over the incoming tools; it stops at the first constraint failure. */
    method InsertTools(incoming: seq<Tool>, x: Identities, now: string) returns (rows: seq<ToolRow>, ok: bool)
      requires Finds(x, Stored(tools))
      ensures ok <==> Constrained(NewRows(Stored(tools), incoming, now))
      ensures ok ==> rows == NewRows(Stored(tools), incoming, now)
    {
      rows := [];
      var nextId := x.nextId;
      ghost var stored := Stored(tools);
      ghost var all := NewRows(stored, incoming, now);
      for i := 0 to |incoming|
        invariant rows == all[..i] && Constrained(rows)
        invariant nextId == NextId(stored) + FreshCount(stored, incoming[..i])
      {
        var row;
        row, nextId := Assign(incoming, i, x, nextId, now);
        Extend(all, i, row);
        if !Insertable(rows, row) {
          return rows, false;
        }
        rows := rows + [row];
      }
      FullSlice(all);
      ok := true;
    }

    /** The columns of one incoming tool, its id and creation time taken over or new. */
    method Assign(incoming: seq<Tool>, i: nat, x: Identities, nextId: int, now: string) returns (row: ToolRow, next: int)
      requires i < |incoming| && Finds(x, Stored(tools))
      requires nextId == NextId(Stored(tools)) + FreshCount(Stored(tools), incoming[..i])
      ensures row == NewRow(Stored(tools), incoming, i, now)
      ensures next == NextId(Stored(tools)) + FreshCount(Stored(tools), incoming[..i + 1])
    {
      var found := Lookup(x, incoming[i]);
      var id, createdAt := nextId, now;
      next := nextId;
      if found.Some? {
        id, createdAt := found.value.id, found.value.createdAt;
      } else {
        next := nextId + 1;
      }
      row := MakeRow(id, i, incoming[i], createdAt, now);
      RowAssigned(Stored(tools), incoming, i, nextId, now);
    }

    /** Load. */
    method Load() returns (r: Loaded)
      ensures r == LoadOf(View())
    {
      if settings == None {
        return Uninitialized;
      }
      var rows := OrderBy(tools);
      var loaded: seq<Tool> := [];
      for i := 0 to |rows|
        invariant loaded == ToolsOf(rows)[..i]
      {
        loaded := loaded + [ToolOf(rows[i])];
      }
      assert loaded == ToolsOf(rows);
      var s := settings.value;
      var c := ApplyDefaults(Config(s.bind, Defaults(s.timeoutMs, s.safeState, s.tls), loaded));
      var e := Validate(c);
      r := if e.Some? then Invalid else Loaded.Loaded(c);
    }
  }

  lemma RowAssigned(stored: set<ToolRow>, tools: seq<Tool>, i: nat, nextId: int, now: string)
    requires i < |tools| && nextId == NextId(stored) + FreshCount(stored, tools[..i])
    ensures var found := Resolve(stored, tools[i]);
      && NewRow(stored, tools, i, now) ==
           MakeRow(if found.Some? then found.value.id else nextId, i, tools[i],
                   if found.Some? then found.value.createdAt else now, now)
      && NextId(stored) + FreshCount(stored, tools[..i + 1]) == if found.Some? then nextId else nextId + 1
  {
    SliceSnoc(tools, i);
  }

  lemma Extend(all: seq<ToolRow>, i: nat, r: ToolRow)
    requires i < |all| && all[i] == r && Constrained(all[..i])
    ensures all[..i + 1] == all[..i] + [r]
    ensures Constrained(all[..i + 1]) <==> Insertable(all[..i], r)
    ensures !Insertable(all[..i], r) ==> !Constrained(all)
  {
    SliceSnoc(all, i);
    InsertStep(all[..i], r);
    if !Insertable(all[..i], r) {
      NotConstrained(all, i + 1);
    }
  }

  lemma InsertStep(rows: seq<ToolRow>, r: ToolRow)
    requires Constrained(rows)
    ensures Constrained(rows + [r]) <==> Insertable(rows, r)
  {
    var all := rows + [r];
    assert forall i :: 0 <= i < |rows| ==> all[i] == rows[i];
    assert all[|rows|] == r;
  }

  lemma NotConstrained(rows: seq<ToolRow>, n: nat)
    requires n <= |rows| && !Constrained(rows[..n])
    ensures !Constrained(rows)
  {
    assert forall i :: 0 <= i < n ==> rows[..n][i] == rows[i];
  }
}
