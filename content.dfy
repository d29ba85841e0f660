/** The payload of a message: a tagged union (matw-core, content.rs). */
module Contents {

  import opened Wrappers
  import opened Json

  datatype Content =
    | Text(text: string)
    | ToolUse(id: string, name: string, input: Json)
    | ToolResult(id: string, content: string, isError: bool)

  /** `as_str`: the text of a Text, the result text of a ToolResult, nothing for a ToolUse. */
  function AsStr(c: Content): (r: Option<string>)
    ensures r.None? <==> c.ToolUse?
    ensures c.Text? ==> r == Some(c.text)
    ensures c.ToolResult? ==> r == Some(c.content)
  {
    match c
    case Text(s) => Some(s)
    case ToolResult(_, s, _) => Some(s)
    case ToolUse(_, _, _) => None
  }

  /** `tool_name`: the called tool's name, only for a ToolUse. */
  function ToolName(c: Content): (r: Option<string>)
    ensures r.Some? <==> c.ToolUse?
    ensures r.Some? ==> r.value == c.name
  {
    match c
    case ToolUse(_, name, _) => Some(name)
    case _ => None
  }

  /** `is_error`: only a ToolResult whose flag is set is an error. */
  function IsError(c: Content): (r: bool)
    ensures r <==> c.ToolResult? && c.isError
  {
    match c
    case ToolResult(_, _, e) => e
    case _ => false
  }

  /** Exactly one of `as_str` and `tool_name` is present, never both. */
  lemma ProjectionsExclusive(c: Content)
    ensures AsStr(c).Some? != ToolName(c).Some?
    ensures IsError(c) ==> AsStr(c).Some?
  {
  }
}
