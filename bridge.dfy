/**
 * The bridge from local tools to the tool server (matw-mcp, bridge.rs): an
 * adapter that presents a tool as a server tool, and the registration of a
 * list of tools through it.
 */
module Bridge {

  import opened Wrappers
  import opened Json
  import Tools
  import opened McpProtocol
  import opened ToolServer

  /** The adapter's `execute`: the output text as one Text item, or the error's text. */
  function AdaptedExecute(t: Tools.Tool, args: Json): Result<seq<ContentItem>, string>
  {
    match t.execute(args)
    case Failure(e) => Failure(e.ToString())
    case Success(output) => Success([Text(output.content)])
  }

  /** `ToolAdapter`: name, description and schema are the wrapped tool's own. */
  function Adapt(t: Tools.Tool): (a: McTool)
    ensures a.name == t.name && a.description == t.description && a.inputSchema == t.parametersSchema
  {
    McTool(t.name, t.description, t.parametersSchema, args => AdaptedExecute(t, args))
  }

  /**
   * Running the adapted tool: success gives exactly one Text item holding the
   * output's content, failure gives the error's display text.
   */
  lemma AdaptedRun(t: Tools.Tool, args: Json)
    ensures var r := Adapt(t).execute(args); var o := t.execute(args);
      && (o.Success? <==> r.Success?)
      && (o.Success? ==> r.value == [Text(o.value.content)])
      && (o.Failure? ==> r.error == o.error.ToString())
  {
  }

  /** The tool's own error flag does not reach the server: two outputs differing only in it adapt alike. */
  lemma IsErrorDropped(t1: Tools.Tool, t2: Tools.Tool, args: Json, content: string)
    requires t1.execute(args) == Success(Tools.ToolOutput(content, true))
    requires t2.execute(args) == Success(Tools.ToolOutput(content, false))
    ensures Adapt(t1).execute(args) == Adapt(t2).execute(args)
  {
  }

  /** The registry after registering the tools of the list in order. */
  function Registered(registry: map<string, McTool>, ts: seq<Tools.Tool>): map<string, McTool>
    decreases |ts|
  {
    if ts == [] then registry
    else
      var last := Adapt(ts[|ts| - 1]);
      Registered(registry, ts[..|ts| - 1])[last.name := last]
  }

  /** The position of the last tool in the list with the given name. */
  function LastNamed(ts: seq<Tools.Tool>, name: string): (r: Option<nat>)
    ensures r.Some? ==> r.value < |ts| && ts[r.value].name == name
    ensures r.Some? ==> forall j :: r.value < j < |ts| ==> ts[j].name != name
    ensures r.None? ==> forall j :: 0 <= j < |ts| ==> ts[j].name != name
    decreases |ts|
  {
    if ts == [] then None
    else if ts[|ts| - 1].name == name then Some(|ts| - 1)
    else LastNamed(ts[..|ts| - 1], name)
  }

  /**
   * Among same-named tools the last one registered wins; names the list does
   * not mention keep what the registry held.
   */
  lemma {:induction false} LastRegistrationWins(registry: map<string, McTool>, ts: seq<Tools.Tool>, name: string)
    ensures var r := Registered(registry, ts); var k := LastNamed(ts, name);
      && (k.Some? ==> name in r && r[name] == Adapt(ts[k.value]))
      && (k.None? ==> (name in r <==> name in registry) && (name in registry ==> r[name] == registry[name]))
    decreases |ts|
  {
    if ts != [] {
      LastRegistrationWins(registry, ts[..|ts| - 1], name);
    }
  }

  /** Registering keeps every tool stored under its own name. */
  lemma {:induction false} RegisteredKeyed(registry: map<string, McTool>, ts: seq<Tools.Tool>)
    requires Keyed(registry)
    ensures Keyed(Registered(registry, ts))
    decreases |ts|
  {
    if ts != [] {
      RegisteredKeyed(registry, ts[..|ts| - 1]);
    }
  }

  /** `register_tools`: each tool, adapted, in list order. */
  method RegisterTools(server: McpServer, ts: seq<Tools.Tool>)
    requires server.Valid()
    modifies server
    ensures server.Valid()
    ensures server.tools == Registered(old(server.tools), ts)
  {
    for i := 0 to |ts|
      invariant server.Valid()
      invariant server.tools == Registered(old(server.tools), ts[..i])
    {
      assert ts[..i + 1][..i] == ts[..i];
      server.RegisterTool(Adapt(ts[i]));
    }
    assert ts[..|ts|] == ts;
  }

  /**
   * A call to an adapted tool that fails with `NotFound` (a read of a missing
   * file) reaches the client as an internal error whose message starts with
   * "Not found".
   */
  lemma NotFoundSurfaces(registry: map<string, McTool>, t: Tools.Tool, args: Json, path: string)
    requires t.name in registry && registry[t.name] == Adapt(t)
    requires t.execute(args) == Failure(Tools.NotFound(path))
    ensures var r := CallTool(registry, Some(ToolCallToJson(ToolCall(t.name, args))));
      && r == Failure(RpcError(InternalError, "Not found: " + path))
      && "Not found" <= r.error.message
  {
    ToolCallRoundTrip(ToolCall(t.name, args));
  }
}
