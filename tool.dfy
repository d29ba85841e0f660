/** The capability every local tool offers (matw-tools, tool.rs). */
module Tools {

  import opened Wrappers
  import opened Json

  /** What one invocation produced: its text and the tool's own error flag. */
  datatype ToolOutput = ToolOutput(content: string, isError: bool)

  /** A failure of `execute` itself; `IO` carries the text of the underlying I/O error. */
  datatype ToolError =
    | InvalidParameters(detail: string)
    | ExecutionFailed(detail: string)
    | IO(detail: string)
    | NotFound(detail: string)
  {
    /** The `Display` text of the error. */
    function ToString(): string
    {
      match this
      case InvalidParameters(d) => "Invalid parameters: " + d
      case ExecutionFailed(d) => "Execution failed: " + d
      case IO(d) => "IO error: " + d
      case NotFound(d) => "Not found: " + d
    }
  }

  /**
   * A tool: name, description, parameter schema and `execute`. Execution is a
   * function of the input; the side effects it has in the source are not modelled.
   */
  datatype Tool = Tool(
    name: string,
    description: string,
    parametersSchema: Json,
    execute: Json -> Result<ToolOutput, ToolError>)

  /** The text of an error starts with its kind and ends with its detail. */
  lemma DisplayShape(e: ToolError)
    ensures e.NotFound? ==> "Not found" <= e.ToString()
    ensures |e.detail| <= |e.ToString()| && e.ToString()[|e.ToString()| - |e.detail|..] == e.detail
  {
  }

  /** Different errors never print the same: the kind and the detail can be read back. */
  lemma {:induction false} DisplayInjective(e1: ToolError, e2: ToolError)
    requires e1.ToString() == e2.ToString()
    ensures e1 == e2
  {
    var s := e1.ToString();
    assert s[0] == e2.ToString()[0];
    assert s[1] == e2.ToString()[1];
    var p1 := |s| - |e1.detail|;
    var p2 := |s| - |e2.detail|;
    assert p1 == p2 by {
      if e1.InvalidParameters? { assert s[..p1] == "Invalid parameters: "; }
      if e1.ExecutionFailed? { assert s[..p1] == "Execution failed: "; }
      if e1.IO? { assert s[..p1] == "IO error: "; }
      if e1.NotFound? { assert s[..p1] == "Not found: "; }
    }
    assert e1.detail == s[p1..] == e2.detail;
  }
}
