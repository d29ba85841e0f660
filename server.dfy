/**
 * The tool server (matw-mcp, server.rs): a registry of tools keyed by name
 * and the JSON-RPC 2.0 dispatch of `tools/list` and `tools/call` over it.
 * The lock around the registry is not modelled; requests are handled one at
 * a time.
 */
module ToolServer {

  import opened Wrappers
  import opened Json
  import opened McpProtocol

  /** The error codes of section 5.1 of the JSON-RPC 2.0 specification that the server uses. */
  const MethodNotFound: i32 := -32601
  const InvalidParams: i32 := -32602
  const InternalError: i32 := -32603

  /** `MCTool`: a tool as the server sees it; `execute` fails with a message. */
  datatype McTool = McTool(
    name: string,
    description: string,
    inputSchema: Json,
    execute: Json -> Result<seq<ContentItem>, string>)

  /** The listed form of a registered tool. */
  function Info(t: McTool): ToolInfo
  {
    ToolInfo(t.name, t.description, t.inputSchema)
  }

  /** A registry: every tool is stored under its own name. */
  ghost predicate Keyed(tools: map<string, McTool>)
  {
    forall k :: k in tools ==> tools[k].name == k
  }

  /** A listing order: each registered name exactly once. */
  ghost predicate IsListingOrder(order: seq<string>, tools: map<string, McTool>)
  {
    && (forall i :: 0 <= i < |order| ==> order[i] in tools)
    && (forall k :: k in tools ==> k in order)
    && (forall i, j :: 0 <= i < j < |order| ==> order[i] != order[j])
  }

  /** The `tools/list` result for a listing order. */
  function Listing(order: seq<string>, tools: map<string, McTool>): (j: Json)
    requires forall i :: 0 <= i < |order| ==> order[i] in tools
    ensures j.JObject? && j.fields.Keys == {"tools"} && j.fields["tools"].JArray?
    ensures |j.fields["tools"].items| == |order|
    ensures forall i :: 0 <= i < |order| ==> j.fields["tools"].items[i] == ToolInfoToJson(Info(tools[order[i]]))
  {
    JObject(map["tools" := JArray(seq(|order|, i requires 0 <= i < |order| => ToolInfoToJson(Info(tools[order[i]]))))])
  }

  /** A sequence without repeats has as many distinct elements as it is long. */
  lemma {:induction false} DistinctCount(order: seq<string>)
    requires forall i, j :: 0 <= i < j < |order| ==> order[i] != order[j]
    ensures |(set x | x in order)| == |order|
    decreases |order|
  {
    if order != [] {
      var rest := order[..|order| - 1];
      var last := order[|order| - 1];
      DistinctCount(rest);
      assert (set x | x in order) == (set x | x in rest) + {last};
      assert last !in (set x | x in rest);
    }
  }

  /** Every listing order has one entry per registered tool. */
  lemma ListingOrderLength(order: seq<string>, tools: map<string, McTool>)
    requires IsListingOrder(order, tools)
    ensures |order| == |tools.Keys|
  {
    DistinctCount(order);
    assert (set x | x in order) == tools.Keys;
  }

  /** The entries any listing of the registry must hold. */
  ghost function Entries(tools: map<string, McTool>): set<Json>
  {
    set k | k in tools :: ToolInfoToJson(Info(tools[k]))
  }

  /** A listing holds exactly the registry's entries, one per registered tool. */
  lemma ListingEntries(order: seq<string>, tools: map<string, McTool>)
    requires IsListingOrder(order, tools)
    ensures var a := Listing(order, tools).fields["tools"].items;
      |a| == |tools.Keys| && (set x | x in a) == Entries(tools)
  {
    ListingOrderLength(order, tools);
    var a := Listing(order, tools).fields["tools"].items;
    forall x | x in a
      ensures x in Entries(tools)
    {
      var i :| 0 <= i < |a| && a[i] == x;
      assert x == ToolInfoToJson(Info(tools[order[i]]));
    }
    forall k | k in tools
      ensures ToolInfoToJson(Info(tools[k])) in a
    {
      var i :| 0 <= i < |order| && order[i] == k;
      assert a[i] == ToolInfoToJson(Info(tools[k]));
    }
  }

  /**
   * Two listings of the same registry (the order is the hash map's and is
   * unspecified) have the same length and the same entries.
   */
  lemma ListingsAgree(o1: seq<string>, o2: seq<string>, tools: map<string, McTool>)
    requires IsListingOrder(o1, tools) && IsListingOrder(o2, tools)
    ensures var a := Listing(o1, tools).fields["tools"].items; var b := Listing(o2, tools).fields["tools"].items;
      |a| == |b| && (set x | x in a) == (set x | x in b)
  {
    ListingEntries(o1, tools);
    ListingEntries(o2, tools);
  }

  function RpcError(code: i32, message: string): JsonRpcError
  {
    JsonRpcError(code, message, None)
  }

  /** `call_tool`: decode the parameters, look the tool up, run it and wrap its content. */
  function CallTool(tools: map<string, McTool>, params: Option<Json>): (r: Result<Json, JsonRpcError>)
    ensures params.None? ==> r == Failure(RpcError(InvalidParams, "Invalid params"))
    ensures params.Some? && ToolCallFromJson(params.value).None? ==> r == Failure(RpcError(InvalidParams, "Invalid tool call"))
    ensures params.Some? && ToolCallFromJson(params.value).Some? ==>
      var call := ToolCallFromJson(params.value).value;
      && (call.name !in tools ==> r == Failure(RpcError(InvalidParams, "Tool not found: " + call.name)))
      && (call.name in tools ==>
            var out := tools[call.name].execute(call.arguments);
            && (out.Failure? ==> r == Failure(RpcError(InternalError, out.error)))
            && (out.Success? ==> r == Success(ToolResultToJson(ToolResult(out.value, false)))))
  {
    if params.None? then Failure(RpcError(InvalidParams, "Invalid params"))
    else match ToolCallFromJson(params.value)
      case None => Failure(RpcError(InvalidParams, "Invalid tool call"))
      case Some(call) =>
        if call.name !in tools then Failure(RpcError(InvalidParams, "Tool not found: " + call.name))
        else match tools[call.name].execute(call.arguments)
          case Failure(e) => Failure(RpcError(InternalError, e))
          case Success(content) => Success(ToolResultToJson(ToolResult(content, false)))
  }

  /** The codes `tools/call` can fail with, and that a success always reports `is_error: false`. */
  lemma CallToolCodes(tools: map<string, McTool>, params: Option<Json>)
    ensures var r := CallTool(tools, params);
      && (r.Failure? ==> r.error.code == InvalidParams || r.error.code == InternalError)
      && (r.Failure? && r.error.code == InternalError <==>
            params.Some? && ToolCallFromJson(params.value).Some?
            && ToolCallFromJson(params.value).value.name in tools
            && tools[ToolCallFromJson(params.value).value.name].execute(ToolCallFromJson(params.value).value.arguments).Failure?)
      && (r.Success? ==> r.value.JObject? && r.value.fields["is_error"] == JBool(false))
      && (r.Failure? ==> r.error.data.None?)
  {
  }

  /** The response envelope: version "2.0", the request's id, and the result or the error. */
  function Envelope(id: Json, result: Result<Json, JsonRpcError>): (r: JsonRpcResponse)
    ensures r.jsonrpc == "2.0" && r.id == id
    ensures r.result.Some? != r.error.Some?
    ensures result.Success? ==> r.result == Some(result.value)
    ensures result.Failure? ==> r.error == Some(result.error)
  {
    match result
    case Success(v) => JsonRpcResponse("2.0", id, Some(v), None)
    case Failure(e) => JsonRpcResponse("2.0", id, None, Some(e))
  }

  /** Part way through a listing: the names listed so far, each once, with their entries, and the names still to come. */
  ghost predicate ListedSoFar(order: seq<string>, items: seq<Json>, remaining: set<string>, tools: map<string, McTool>)
  {
    && remaining <= tools.Keys
    && (forall i :: 0 <= i < |order| ==> order[i] in tools && order[i] !in remaining)
    && (forall k :: k in tools && k !in remaining ==> k in order)
    && (forall i, j :: 0 <= i < j < |order| ==> order[i] != order[j])
    && |items| == |order|
    && (forall i :: 0 <= i < |order| ==> items[i] == ToolInfoToJson(Info(tools[order[i]])))
  }

  lemma ListedStep(order: seq<string>, items: seq<Json>, remaining: set<string>, tools: map<string, McTool>, k: string)
    requires ListedSoFar(order, items, remaining, tools) && k in remaining
    ensures ListedSoFar(order + [k], items + [ToolInfoToJson(Info(tools[k]))], remaining - {k}, tools)
  {
  }

  lemma ListedAll(order: seq<string>, items: seq<Json>, tools: map<string, McTool>)
    requires ListedSoFar(order, items, {}, tools)
    ensures IsListingOrder(order, tools)
    ensures JObject(map["tools" := JArray(items)]) == Listing(order, tools)
  {
    assert items == Listing(order, tools).fields["tools"].items;
  }

  /** In a keyed registry, every listing entry names the key it was listed under. */
  lemma ListingNames(order: seq<string>, tools: map<string, McTool>)
    requires Keyed(tools) && forall i :: 0 <= i < |order| ==> order[i] in tools
    ensures forall i :: 0 <= i < |order| ==> Listing(order, tools).fields["tools"].items[i].fields["name"] == JString(order[i])
  {
  }

  class McpServer {
    var tools: map<string, McTool>

    ghost predicate Valid()
      reads this
    {
      Keyed(tools)
    }

    /** `MCPServer::new`: an empty registry. */
    constructor ()
      ensures Valid() && tools == map[]
    {
      tools := map[];
    }

    /** `register_tool`: stores the tool under its name, replacing any tool of that name. */
    method RegisterTool(t: McTool)
      requires Valid()
      modifies this
      ensures Valid()
      ensures tools == old(tools)[t.name := t]
    {
      tools := tools[t.name := t];
    }

    /**
     * `list_tools`: one entry per registered tool, in the order the map yields
     * them; as the registry is keyed by name, each entry names its own key.
     */
    method ListTools() returns (r: Json, ghost order: seq<string>)
      requires Valid()
      ensures IsListingOrder(order, tools)
      ensures r == Listing(order, tools)
      ensures forall i :: 0 <= i < |order| ==> r.fields["tools"].items[i].fields["name"] == JString(order[i])
    {
      var remaining := tools.Keys;
      var items: seq<Json> := [];
      order := [];
      while remaining != {}
        invariant ListedSoFar(order, items, remaining, tools)
        decreases |remaining|
      {
        var k :| k in remaining;
        ListedStep(order, items, remaining, tools, k);
        order := order + [k];
        items := items + [ToolInfoToJson(Info(tools[k]))];
        remaining := remaining - {k};
      }
      ListedAll(order, items, tools);
      ListingNames(order, tools);
      r := JObject(map["tools" := JArray(items)]);
    }

    /** `handle_request`: dispatch on the method name and wrap the outcome in the envelope. */
    method HandleRequest(request: JsonRpcRequest) returns (response: JsonRpcResponse, ghost order: seq<string>)
      requires Valid()
      ensures response.jsonrpc == "2.0" && response.id == request.id
      ensures response.result.Some? != response.error.Some?
      ensures request.methodName == "tools/list" ==>
        IsListingOrder(order, tools) && response == Envelope(request.id, Success(Listing(order, tools)))
      ensures request.methodName == "tools/call" ==> response == Envelope(request.id, CallTool(tools, request.params))
      ensures request.methodName != "tools/list" && request.methodName != "tools/call" ==>
        response.error == Some(RpcError(MethodNotFound, "Method not found"))
    {
      var result: Result<Json, JsonRpcError>;
      order := [];
      if request.methodName == "tools/list" {
        var listed;
        listed, order := ListTools();
        result := Success(listed);
      } else if request.methodName == "tools/call" {
        result := CallTool(tools, request.params);
      } else {
        result := Failure(RpcError(MethodNotFound, "Method not found"));
      }
      response := Envelope(request.id, result);
    }
  }
}
