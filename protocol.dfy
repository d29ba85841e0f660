/**
 * The wire types of the tool server (matw-mcp, protocol.rs): the JSON-RPC 2.0
 * request, response and error envelopes, and the Model Context Protocol's
 * tool description, tool call, tool result and content items, each with the
 * JSON form serde derives for it. Absent optional fields are left out of the
 * object rather than written as null.
 */
module McpProtocol {

  import opened Wrappers
  import opened Json

  newtype i32 = x: int | -0x8000_0000 <= x < 0x8000_0000

  datatype JsonRpcRequest = JsonRpcRequest(jsonrpc: string, id: Json, methodName: string, params: Option<Json>)

  datatype JsonRpcError = JsonRpcError(code: i32, message: string, data: Option<Json>)

  datatype JsonRpcResponse = JsonRpcResponse(jsonrpc: string, id: Json, result: Option<Json>, error: Option<JsonRpcError>)

  /** The protocol's `Tool`: a tool as listed to clients. */
  datatype ToolInfo = ToolInfo(name: string, description: string, inputSchema: Json)

  datatype ToolCall = ToolCall(name: string, arguments: Json)

  datatype ContentItem =
    | Text(text: string)
    | Image(data: string, mimeType: string)
    | Resource(uri: string)

  datatype ToolResult = ToolResult(content: seq<ContentItem>, isError: bool)

  /** The object with `key := value` added when the value is present. */
  function WithOptional(fields: map<string, Json>, key: string, value: Option<Json>): (r: map<string, Json>)
    ensures key in r <==> key in fields || value.Some?
    ensures value.Some? ==> r[key] == value.value
    ensures forall k :: k in fields && k != key ==> k in r && r[k] == fields[k]
    ensures forall k :: k in r && k != key ==> k in fields
  {
    if value.Some? then fields[key := value.value] else fields
  }

  function RequestToJson(r: JsonRpcRequest): (j: Json)
    ensures j.JObject? && "method" in j.fields && j.fields["method"] == JString(r.methodName)
    ensures "params" in j.fields <==> r.params.Some?
    ensures j.fields.Keys == {"jsonrpc", "id", "method"} + (if r.params.Some? then {"params"} else {})
  {
    JObject(WithOptional(map["jsonrpc" := JString(r.jsonrpc), "id" := r.id, "method" := JString(r.methodName)], "params", r.params))
  }

  function ErrorToJson(e: JsonRpcError): (j: Json)
    ensures j.JObject? && "code" in j.fields && j.fields["code"] == JNumber(e.code as int)
    ensures "data" in j.fields <==> e.data.Some?
    ensures j.fields.Keys == {"code", "message"} + (if e.data.Some? then {"data"} else {})
  {
    JObject(WithOptional(map["code" := JNumber(e.code as int), "message" := JString(e.message)], "data", e.data))
  }

  function ResponseToJson(r: JsonRpcResponse): (j: Json)
    ensures j.JObject? && "id" in j.fields && j.fields["id"] == r.id
    ensures "result" in j.fields <==> r.result.Some?
    ensures "error" in j.fields <==> r.error.Some?
    ensures r.result.Some? ==> j.fields["result"] == r.result.value
    ensures r.error.Some? ==> j.fields["error"] == ErrorToJson(r.error.value)
    ensures j.fields.Keys == {"jsonrpc", "id"} + (if r.result.Some? then {"result"} else {})
                                               + (if r.error.Some? then {"error"} else {})
  {
    var error := if r.error.Some? then Some(ErrorToJson(r.error.value)) else None;
    JObject(WithOptional(WithOptional(map["jsonrpc" := JString(r.jsonrpc), "id" := r.id], "result", r.result), "error", error))
  }

  function ToolInfoToJson(t: ToolInfo): Json
  {
    JObject(map["name" := JString(t.name), "description" := JString(t.description), "input_schema" := t.inputSchema])
  }

  // ---- Content items: internally tagged by "type" ----

  function TypeTag(c: ContentItem): string
  {
    match c
    case Text(_) => "text"
    case Image(_, _) => "image"
    case Resource(_) => "resource"
  }

  function ContentItemToJson(c: ContentItem): (j: Json)
    ensures j.JObject? && "type" in j.fields && j.fields["type"] == JString(TypeTag(c))
  {
    match c
    case Text(t) => JObject(map["type" := JString("text"), "text" := JString(t)])
    case Image(d, m) => JObject(map["type" := JString("image"), "data" := JString(d), "mime_type" := JString(m)])
    case Resource(u) => JObject(map["type" := JString("resource"), "uri" := JString(u)])
  }

  /** The decoder: the "type" tag picks the variant, whose fields must then be present. */
  function ContentItemFromJson(j: Json): Option<ContentItem>
  {
    match StringField(j, "type")
    case Some("text") =>
      if StringField(j, "text").Some? then Some(Text(j.fields["text"].s)) else None
    case Some("image") =>
      if StringField(j, "data").Some? && StringField(j, "mime_type").Some? then
        Some(Image(j.fields["data"].s, j.fields["mime_type"].s))
      else None
    case Some("resource") =>
      if StringField(j, "uri").Some? then Some(Resource(j.fields["uri"].s)) else None
    case _ => None
  }

  /** The three tags are distinct, so the tag alone tells the variants apart. */
  lemma TypeTagInjective(a: ContentItem, b: ContentItem)
    requires TypeTag(a) == TypeTag(b)
    ensures a.Text? == b.Text? && a.Image? == b.Image? && a.Resource? == b.Resource?
  {
  }

  lemma ContentItemRoundTrip(c: ContentItem)
    ensures ContentItemFromJson(ContentItemToJson(c)) == Some(c)
  {
    var j := ContentItemToJson(c);
    assert StringField(j, "type") == Some(TypeTag(c));
  }

  function ToolResultToJson(r: ToolResult): (j: Json)
    ensures j.JObject? && j.fields.Keys == {"content", "is_error"}
    ensures j.fields["is_error"] == JBool(r.isError)
    ensures j.fields["content"].JArray? && |j.fields["content"].items| == |r.content|
    ensures forall i :: 0 <= i < |r.content| ==> j.fields["content"].items[i] == ContentItemToJson(r.content[i])
  {
    JObject(map[
      "content" := JArray(seq(|r.content|, i requires 0 <= i < |r.content| => ContentItemToJson(r.content[i]))),
      "is_error" := JBool(r.isError)])
  }

  // ---- Tool calls: serde's struct forms ----

  function ToolCallToJson(c: ToolCall): Json
  {
    JObject(map["name" := JString(c.name), "arguments" := c.arguments])
  }

  /**
   * `from_value` for `ToolCall`: an object with a string "name" and an
   * "arguments" key (other keys are ignored), or a two-element array whose
   * first element is a string.
   */
  function ToolCallFromJson(j: Json): (r: Option<ToolCall>)
    ensures r.Some? && j.JObject? ==> StringField(j, "name") == Some(r.value.name) && "arguments" in j.fields
  {
    if StringField(j, "name").Some? && "arguments" in j.fields then
      Some(ToolCall(j.fields["name"].s, j.fields["arguments"]))
    else if j.JArray? && |j.items| == 2 && j.items[0].JString? then
      Some(ToolCall(j.items[0].s, j.items[1]))
    else None
  }

  lemma ToolCallRoundTrip(c: ToolCall)
    ensures ToolCallFromJson(ToolCallToJson(c)) == Some(c)
  {
    assert StringField(ToolCallToJson(c), "name") == Some(c.name);
  }

  /** The serialization test: a request names its method as a field. */
  lemma RequestNamesMethod()
    ensures var j := RequestToJson(JsonRpcRequest("2.0", JNumber(1), "tools/list", None));
      j.fields["method"] == JString("tools/list") && "params" !in j.fields
  {
  }
}
