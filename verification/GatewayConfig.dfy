/**
  The gateway configuration: defaults, validation and the normal form of a tool's protocol.
 */
module GatewayConfig {
  import opened Optional
  import opened Text

  const MIN_TOOL_PORT: int := 8081
  const MAX_TOOL_PORT: int := 8981

  datatype ShellyTls = ShellyTls(serverCaFile: string, clientCertFile: string, clientKeyFile: string)

  datatype Defaults = Defaults(timeoutMs: int, safeStateOnError: string, shellyTls: ShellyTls)

  datatype Tool = Tool(interlockName: string, ip: string, protocol: string, port: int, switchId: int,
                       username: Option<string>, password: Option<string>, enabled: bool)

  datatype Config = Config(bind: string, defaults: Defaults, tools: seq<Tool>)

  datatype ConfigError =
    | MissingName | PortOutOfRange(port: int) | MissingIp | IpHasScheme | NegativeSwitch | BadProtocol(protocol: string)
    | DuplicatePort(port: int) | MissingServerCa | MissingClientCert | MissingClientKey

  /** ApplyDefaults. */
  function ApplyDefaults(c: Config): Config {
    c.(bind := if c.bind == "" then "0.0.0.0" else c.bind,
       defaults := c.defaults.(
         timeoutMs := if c.defaults.timeoutMs <= 0 then 3000 else c.defaults.timeoutMs,
         safeStateOnError := if c.defaults.safeStateOnError == "" then "off" else c.defaults.safeStateOnError))
  }

  /** ToolProtocol. */
  function ProtocolOf(protocol: string): string {
    var p := ToLower(TrimSpace(protocol));
    if p == "" then "http" else p
  }

  function ToolProtocol(t: Tool): string { ProtocolOf(t.protocol) }

  function ValidateTool(t: Tool): Option<ConfigError> {
    if TrimSpace(t.interlockName) == "" then Some(MissingName)
    else if t.port < MIN_TOOL_PORT || t.port > MAX_TOOL_PORT then Some(PortOutOfRange(t.port))
    else if TrimSpace(t.ip) == "" then Some(MissingIp)
    else if Contains(t.ip, "://") then Some(IpHasScheme)
    else if t.switchId < 0 then Some(NegativeSwitch)
    else if ToolProtocol(t) != "http" && ToolProtocol(t) != "https" then Some(BadProtocol(t.protocol))
    else None
  }

  function ValidateTls(c: Config): Option<ConfigError> {
    if forall t :: t in c.tools ==> ToolProtocol(t) != "https" then None
    else if TrimSpace(c.defaults.shellyTls.serverCaFile) == "" then Some(MissingServerCa)
    else if TrimSpace(c.defaults.shellyTls.clientCertFile) == "" then Some(MissingClientCert)
    else if TrimSpace(c.defaults.shellyTls.clientKeyFile) == "" then Some(MissingClientKey)
    else None
  }

  ghost predicate DistinctPorts(tools: seq<Tool>) {
    forall i, j :: 0 <= i < j < |tools| ==> tools[i].port != tools[j].port
  }

  /** The first complaint, if any. */
  function FirstSome(complaints: seq<Option<ConfigError>>): Option<ConfigError> {
    if complaints == [] then None
    else
      var e := FirstSome(complaints[..|complaints| - 1]);
      if e.Some? then e else complaints[|complaints| - 1]
  }

  function Complaints(tools: seq<Tool>): (es: seq<Option<ConfigError>>)
    ensures |es| == |tools|
  {
    seq(|tools|, i requires 0 <= i < |tools| => ValidateTool(tools[i]))
  }

  /** The first complaint about a tool, tools taken in order. */
  function FirstError(tools: seq<Tool>): Option<ConfigError> { FirstSome(Complaints(tools)) }

  lemma {:induction false} FirstSomeNone(es: seq<Option<ConfigError>>)
    ensures FirstSome(es) == None <==> forall i :: 0 <= i < |es| ==> es[i] == None
  {
    if es != [] {
      FirstSomeNone(es[..|es| - 1]);
    }
  }

  lemma FirstErrorNone(tools: seq<Tool>)
    ensures FirstError(tools) == None <==> forall i :: 0 <= i < |tools| ==> ValidateTool(tools[i]) == None
  {
    var es := Complaints(tools);
    FirstSomeNone(es);
    forall i | 0 <= i < |tools| ensures es[i] == ValidateTool(tools[i]) {
    }
  }

  /** What a configuration has to satisfy to be accepted. */
  ghost predicate Valid(c: Config) {
    FirstError(c.tools) == None && DistinctPorts(c.tools) && ValidateTls(c) == None
  }

  ghost function Ports(tools: seq<Tool>): set<int> {
    set t | t in tools :: t.port
  }

  lemma OneMorePort(tools: seq<Tool>, t: Tool)
    ensures Ports(tools + [t]) == Ports(tools) + {t.port}
    ensures DistinctPorts(tools + [t]) <==> DistinctPorts(tools) && t.port !in Ports(tools)
  {
    var r := tools + [t];
    assert forall x :: x in r <==> x in tools || x == t;
    assert forall i :: 0 <= i < |tools| ==> r[i] == tools[i];
    assert r[|tools|] == t;
  }

  /** The first `i` tools drew no complaint and have distinct ports. */
  ghost predicate Passed(es: seq<Option<ConfigError>>, tools: seq<Tool>, i: nat)
    requires i <= |tools| == |es|
  {
    (forall k :: 0 <= k < i ==> es[k] == None) && DistinctPorts(tools[..i])
  }

  /** One more tool: its port is new exactly when the ports stay distinct. */
  lemma OneMoreTool(tools: seq<Tool>, i: nat)
    requires i < |tools| && DistinctPorts(tools[..i])
    ensures tools[i].port !in Ports(tools[..i]) <==> DistinctPorts(tools[..i + 1])
    ensures Ports(tools[..i + 1]) == Ports(tools[..i]) + {tools[i].port}
  {
    OneMorePort(tools[..i], tools[i]);
    assert tools[..i + 1] == tools[..i] + [tools[i]];
  }

  lemma PrefixPassed(es: seq<Option<ConfigError>>, tools: seq<Tool>, i: nat, n: nat)
    requires i <= n <= |tools| == |es| && Passed(es, tools, n)
    ensures Passed(es, tools, i)
  {
    assert forall k :: 0 <= k < i ==> tools[..i][k] == tools[..n][k];
  }

  lemma PassedStep(es: seq<Option<ConfigError>>, tools: seq<Tool>, i: nat)
    requires i < |tools| == |es| && Passed(es, tools, i)
    ensures Passed(es, tools, i + 1) <==> es[i] == None && tools[i].port !in Ports(tools[..i])
    ensures !Passed(es, tools, i + 1) ==> !Passed(es, tools, |tools|)
  {
    OneMoreTool(tools, i);
    if Passed(es, tools, |tools|) {
      PrefixPassed(es, tools, i + 1, |tools|);
    }
  }

  lemma PassedAll(es: seq<Option<ConfigError>>, tools: seq<Tool>)
    requires |es| == |tools|
    ensures Passed(es, tools, |tools|) <==> FirstSome(es) == None && DistinctPorts(tools)
  {
    FirstSomeNone(es);
    assert tools[..|tools|] == tools;
  }

  /** `e` is the complaint about tool `i`, all tools before it having passed: the tool's own
      error if it has one, else that its port is taken. */
  ghost predicate FailsAt(es: seq<Option<ConfigError>>, tools: seq<Tool>, i: nat, e: ConfigError)
    requires i < |tools| == |es|
  {
    Passed(es, tools, i) &&
    (es[i] == Some(e) || (es[i] == None && tools[i].port in Ports(tools[..i]) && e == DuplicatePort(tools[i].port)))
  }

  /** There is only one first complaint. */
  lemma FailsOnce(es: seq<Option<ConfigError>>, tools: seq<Tool>, i: nat, j: nat, e: ConfigError, f: ConfigError)
    requires i < |tools| == |es| && j < |tools| && FailsAt(es, tools, i, e) && FailsAt(es, tools, j, f)
    ensures i == j && e == f
  {
    if i < j {
      FailsBefore(es, tools, i, j, e);
    } else if j < i {
      FailsBefore(es, tools, j, i, f);
    }
  }

  lemma FailsBefore(es: seq<Option<ConfigError>>, tools: seq<Tool>, i: nat, j: nat, e: ConfigError)
    requires i < j < |tools| == |es| && FailsAt(es, tools, i, e)
    ensures !Passed(es, tools, j)
  {
    if Passed(es, tools, j) {
      PrefixPassed(es, tools, i + 1, j);
      PassedStep(es, tools, i);
    }
  }

  /** The loop of Validate, with its table of seen ports. */
  method ValidateTools(tools: seq<Tool>) returns (error: Option<ConfigError>)
    ensures error == None <==> FirstError(tools) == None && DistinctPorts(tools)
    ensures error.Some? ==> exists i: nat :: i < |tools| && FailsAt(Complaints(tools), tools, i, error.value)
  {
    var seenPorts: map<int, string> := map[];
    ghost var es := Complaints(tools);
    PassedAll(es, tools);
    for i := 0 to |tools|
      invariant Passed(es, tools, i) && seenPorts.Keys == Ports(tools[..i])
    {
      var tool := tools[i];
      PassedStep(es, tools, i);
      OneMoreTool(tools, i);
      error := ValidateTool(tool);
      assert es[i] == error;
      if error.Some? {
        assert FailsAt(es, tools, i, error.value);
        return;
      }
      if tool.port in seenPorts {
        assert FailsAt(es, tools, i, DuplicatePort(tool.port));
        return Some(DuplicatePort(tool.port));
      }
      seenPorts := seenPorts[tool.port := tool.interlockName];
    }
    error := None;
  }

  /** Validate accepts exactly the valid configurations; otherwise it returns the first
      complaint about the tools, or else that about the TLS material. */
  method Validate(c: Config) returns (error: Option<ConfigError>)
    ensures error == None <==> Valid(c)
    ensures error.Some? ==>
      if FirstError(c.tools) == None && DistinctPorts(c.tools) then error == ValidateTls(c)
      else exists i: nat :: i < |c.tools| && FailsAt(Complaints(c.tools), c.tools, i, error.value)
  {
    error := ValidateTools(c.tools);
    if error == None {
      error := ValidateTls(c);
    }
  }
}
