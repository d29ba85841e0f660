/**
 * The specification of the agent loop (matw-agent, agent.rs): up to
 * `maxIterations` rounds of "ask the provider, log its text, run each
 * requested tool, log the results", written as functions on the log, and the
 * properties of the loop proved about them.
 *
 * `Rounds` gives the result, the final log, the next free message id and the
 * requests sent to the provider; `Agent.Process` is proved to compute it.
 */
module AgentSpec {

  import opened Wrappers
  import opened Json
  import opened Roles
  import Contents
  import opened Messages
  import opened Sessions
  import opened Tools
  import opened Provider

  /** A fatal error of the loop, with its `Display` text. */
  datatype AgentError =
    | MaxIterationsReached
    | NoUserMessage
    | AIProvider(detail: string)
    | ToolNotFound(name: string)
    | ToolExecution(detail: string)
  {
    function ToString(): string
    {
      match this
      case MaxIterationsReached => "Max iterations reached"
      case NoUserMessage => "No user message found"
      case AIProvider(d) => "AI provider error: " + d
      case ToolNotFound(n) => "Tool not found: " + n
      case ToolExecution(d) => "Tool execution error: " + d
    }
  }

  /** Distinct errors print differently: the error shown to the user identifies it. */
  lemma {:induction false} ErrorDisplayInjective(e1: AgentError, e2: AgentError)
    requires e1.ToString() == e2.ToString()
    ensures e1 == e2
  {
    var s := e1.ToString();
    var t := e2.ToString();
    assert s[0] == t[0] && s[5] == t[5];
    if e1.AIProvider? {
      assert s[|"AI provider error: "|..] == e1.detail && t[|"AI provider error: "|..] == e2.detail;
    } else if e1.ToolNotFound? {
      assert s[|"Tool not found: "|..] == e1.name && t[|"Tool not found: "|..] == e2.name;
    } else if e1.ToolExecution? {
      assert s[|"Tool execution error: "|..] == e1.detail && t[|"Tool execution error: "|..] == e2.detail;
    }
  }

  const DefaultMaxIterations: nat := 10
  const SystemPrompt: string := "You are a helpful AI coding assistant with access to tools."
  const RequestModel: string := "default"
  const RequestMaxTokens: u32 := 4096
  const RequestTemperature: real := 0.7

  /** The definitions advertised to the provider, one per tool, in list order. */
  function ToolDefs(tools: seq<Tool>): (r: seq<ToolDefinition>)
    ensures |r| == |tools|
    ensures forall i :: 0 <= i < |tools| ==>
      r[i].name == tools[i].name && r[i].description == tools[i].description && r[i].parameters == tools[i].parametersSchema
  {
    seq(|tools|, i requires 0 <= i < |tools| => ToolDefinition(tools[i].name, tools[i].description, tools[i].parametersSchema))
  }

  /** The request of one round: the whole log, every tool, the fixed system prompt. */
  function RoundRequest(tools: seq<Tool>, log: seq<Message>): CompletionRequest
  {
    CompletionRequest(log, ToolDefs(tools), RequestModel, Some(RequestMaxTokens), Some(RequestTemperature), Some(SystemPrompt))
  }

  /** Scans the log from its end for a User message. */
  function LastUserIndex(log: seq<Message>): (r: Option<nat>)
    ensures r.Some? ==> r.value < |log| && log[r.value].role == User &&
                        forall j :: r.value < j < |log| ==> log[j].role != User
    ensures r.None? ==> forall j :: 0 <= j < |log| ==> log[j].role != User
  {
    if log == [] then None
    else if log[|log| - 1].role == User then Some(|log| - 1)
    else LastUserIndex(log[..|log| - 1])
  }

  /** The position of the first tool with the given name. */
  function FindTool(tools: seq<Tool>, name: string): (r: Option<nat>)
    ensures r.Some? ==> r.value < |tools| && tools[r.value].name == name &&
                        forall j :: 0 <= j < r.value ==> tools[j].name != name
    ensures r.None? ==> forall j :: 0 <= j < |tools| ==> tools[j].name != name
  {
    if tools == [] then None
    else if tools[0].name == name then Some(0)
    else
      match FindTool(tools[1..], name)
      case None => None
      case Some(i) => Some(i + 1)
  }

  /** What running one tool use gives: its output, or the fatal error it raises. */
  function Invoke(tools: seq<Tool>, u: Provider.ToolUse): Result<ToolOutput, AgentError>
  {
    match FindTool(tools, u.name)
    case None => Failure(ToolNotFound(u.name))
    case Some(i) =>
      match tools[i].execute(u.input)
      case Failure(e) => Failure(ToolExecution(e.ToString()))
      case Success(out) => Success(out)
  }

  datatype ToolsOutcome = ToolsOutcome(error: Option<AgentError>, log: seq<Message>, nextId: nat)

  /** The inner `for` over the tool uses of one response. */
  function RunTools(tools: seq<Tool>, uses: seq<Provider.ToolUse>, log: seq<Message>, nextId: nat): ToolsOutcome
    decreases |uses|
  {
    if uses == [] then ToolsOutcome(None, log, nextId)
    else
      var u := uses[0];
      var log1 := log + [NewToolUse(nextId, u.id, u.name, u.input)];
      match Invoke(tools, u)
      case Failure(e) => ToolsOutcome(Some(e), log1, nextId + 1)
      case Success(out) =>
        RunTools(tools, uses[1..], log1 + [NewToolResult(nextId + 1, u.id, out.content, out.isError)], nextId + 2)
  }

  datatype Step = Continue(log: seq<Message>, nextId: nat) | Finish(result: Result<(), AgentError>, log: seq<Message>, nextId: nat)

  /** One round after the checks: the provider call, the Assistant text, the tools. */
  function Round(p: Provider.AIProvider, tools: seq<Tool>, log: seq<Message>, nextId: nat): Step
  {
    match p.complete(RoundRequest(tools, log))
    case Failure(e) => Finish(Failure(AgentError.AIProvider(e.ToString())), log, nextId)
    case Success(resp) =>
      var log1 := log + [NewAssistant(nextId, resp.content)];
      if resp.toolUses == [] then Finish(Success(()), log1, nextId + 1)
      else
        var t := RunTools(tools, resp.toolUses, log1, nextId + 1);
        if t.error.Some? then Finish(Failure(t.error.value), t.log, t.nextId)
        else Continue(t.log, t.nextId)
  }

  datatype Outcome = Outcome(result: Result<(), AgentError>, log: seq<Message>, nextId: nat, requests: seq<CompletionRequest>)

  /** The loop from round `iteration` on. */
  function Rounds(p: Provider.AIProvider, tools: seq<Tool>, maxIterations: nat, iteration: nat, log: seq<Message>, nextId: nat): Outcome
    decreases maxIterations - iteration
  {
    if iteration >= maxIterations then Outcome(Failure(MaxIterationsReached), log, nextId, [])
    else if LastUserIndex(log).None? then Outcome(Failure(NoUserMessage), log, nextId, [])
    else
      var request := RoundRequest(tools, log);
      match Round(p, tools, log, nextId)
      case Finish(r, log', next') => Outcome(r, log', next', [request])
      case Continue(log', next') =>
        var o := Rounds(p, tools, maxIterations, iteration + 1, log', next');
        o.(requests := [request] + o.requests)
  }

  // ---- Properties of the inner loop over tool uses ----

  /** How many tool uses, from the front, are found and execute without error. */
  function LeadingSuccesses(tools: seq<Tool>, uses: seq<Provider.ToolUse>): (k: nat)
    ensures k <= |uses|
    ensures forall j :: 0 <= j < k ==> Invoke(tools, uses[j]).Success?
    ensures k < |uses| ==> Invoke(tools, uses[k]).Failure?
    decreases |uses|
  {
    if uses == [] || Invoke(tools, uses[0]).Failure? then 0
    else 1 + LeadingSuccesses(tools, uses[1..])
  }

  /** The inner loop appends 2k messages, plus the failing use's ToolUse, with consecutive fresh ids. */
  lemma {:induction false} RunToolsAppends(tools: seq<Tool>, uses: seq<Provider.ToolUse>, log: seq<Message>, nextId: nat)
    ensures var t := RunTools(tools, uses, log, nextId); var k := LeadingSuccesses(tools, uses);
      && |t.log| == |log| + 2 * k + (if k < |uses| then 1 else 0)
      && t.log[..|log|] == log
      && t.nextId == nextId + |t.log| - |log|
      && (forall i :: |log| <= i < |t.log| ==> t.log[i].id == nextId + i - |log|)
      && (t.error.None? <==> k == |uses|)
    decreases |uses|
  {
    if uses != [] && Invoke(tools, uses[0]).Success? {
      var u := uses[0];
      var out := Invoke(tools, u).value;
      var log2 := log + [NewToolUse(nextId, u.id, u.name, u.input)] + [NewToolResult(nextId + 1, u.id, out.content, out.isError)];
      var t := RunTools(tools, uses[1..], log2, nextId + 2);
      assert RunTools(tools, uses, log, nextId) == t;
      RunToolsAppends(tools, uses[1..], log2, nextId + 2);
      assert t.log[..|log|] == t.log[..|log2|][..|log|];
      forall i | |log| <= i < |t.log|
        ensures t.log[i].id == nextId + i - |log|
      {
        if i >= |log2| {
        } else {
          assert t.log[i] == t.log[..|log2|][i] == log2[i];
        }
      }
    }
  }

  /** The pair of leading successful use j sits at its place after the old log. */
  lemma {:induction false} RunToolsPairAt(tools: seq<Tool>, uses: seq<Provider.ToolUse>, log: seq<Message>, nextId: nat, j: nat)
    requires j < LeadingSuccesses(tools, uses)
    ensures var t := RunTools(tools, uses, log, nextId);
      && |log| + 2 * j + 1 < |t.log|
      && t.log[|log| + 2 * j] == NewToolUse(nextId + 2 * j, uses[j].id, uses[j].name, uses[j].input)
      && t.log[|log| + 2 * j + 1] == NewToolResult(nextId + 2 * j + 1, uses[j].id,
           Invoke(tools, uses[j]).value.content, Invoke(tools, uses[j]).value.isError)
    decreases |uses|
  {
    var u := uses[0];
    var out := Invoke(tools, u).value;
    var log2 := log + [NewToolUse(nextId, u.id, u.name, u.input)] + [NewToolResult(nextId + 1, u.id, out.content, out.isError)];
    var t := RunTools(tools, uses[1..], log2, nextId + 2);
    assert RunTools(tools, uses, log, nextId) == t;
    if j == 0 {
      RunToolsAppends(tools, uses[1..], log2, nextId + 2);
      assert t.log[|log|] == t.log[..|log2|][|log|] == log2[|log|];
      assert t.log[|log| + 1] == t.log[..|log2|][|log| + 1] == log2[|log| + 1];
    } else {
      RunToolsPairAt(tools, uses[1..], log2, nextId + 2, j - 1);
      assert uses[1..][j - 1] == uses[j];
      assert |log2| + 2 * (j - 1) == |log| + 2 * j;
    }
  }

  /** The first failing use leaves its ToolUse message last and its error. */
  lemma {:induction false} RunToolsFailure(tools: seq<Tool>, uses: seq<Provider.ToolUse>, log: seq<Message>, nextId: nat)
    requires LeadingSuccesses(tools, uses) < |uses|
    ensures var t := RunTools(tools, uses, log, nextId); var k := LeadingSuccesses(tools, uses);
      && |t.log| == |log| + 2 * k + 1
      && t.log[|log| + 2 * k] == NewToolUse(nextId + 2 * k, uses[k].id, uses[k].name, uses[k].input)
      && t.error == Some(Invoke(tools, uses[k]).error)
    decreases |uses|
  {
    var u := uses[0];
    if Invoke(tools, u).Success? {
      var out := Invoke(tools, u).value;
      var log2 := log + [NewToolUse(nextId, u.id, u.name, u.input)] + [NewToolResult(nextId + 1, u.id, out.content, out.isError)];
      assert RunTools(tools, uses, log, nextId) == RunTools(tools, uses[1..], log2, nextId + 2);
      RunToolsFailure(tools, uses[1..], log2, nextId + 2);
      var k := LeadingSuccesses(tools, uses);
      assert uses[1..][k - 1] == uses[k];
      assert |log2| + 2 * (k - 1) == |log| + 2 * k;
    }
  }

  /**
   * The messages one response's tool uses append: for each use that succeeds, in
   * the order returned, its ToolUse message and then a ToolResult with the same
   * call id and the tool's output; at the first failure, only that use's ToolUse
   * message, and the error. The appended messages get consecutive fresh ids.
   */
  lemma RunToolsShape(tools: seq<Tool>, uses: seq<Provider.ToolUse>, log: seq<Message>, nextId: nat)
    ensures var t := RunTools(tools, uses, log, nextId); var k := LeadingSuccesses(tools, uses);
      && |t.log| == |log| + 2 * k + (if k < |uses| then 1 else 0)
      && t.log[..|log|] == log
      && t.nextId == nextId + |t.log| - |log|
      && (forall i :: |log| <= i < |t.log| ==> t.log[i].id == nextId + i - |log|)
      && (forall j :: 0 <= j < k ==>
            && t.log[|log| + 2 * j] == NewToolUse(nextId + 2 * j, uses[j].id, uses[j].name, uses[j].input)
            && t.log[|log| + 2 * j + 1] == NewToolResult(nextId + 2 * j + 1, uses[j].id,
                 Invoke(tools, uses[j]).value.content, Invoke(tools, uses[j]).value.isError))
      && (t.error.None? <==> k == |uses|)
      && (k < |uses| ==>
            && t.log[|log| + 2 * k] == NewToolUse(nextId + 2 * k, uses[k].id, uses[k].name, uses[k].input)
            && t.error == Some(Invoke(tools, uses[k]).error))
  {
    RunToolsAppends(tools, uses, log, nextId);
    var t := RunTools(tools, uses, log, nextId);
    forall j | 0 <= j < LeadingSuccesses(tools, uses)
      ensures t.log[|log| + 2 * j] == NewToolUse(nextId + 2 * j, uses[j].id, uses[j].name, uses[j].input)
      ensures t.log[|log| + 2 * j + 1] == NewToolResult(nextId + 2 * j + 1, uses[j].id,
                Invoke(tools, uses[j]).value.content, Invoke(tools, uses[j]).value.isError)
    {
      RunToolsPairAt(tools, uses, log, nextId, j);
    }
    if LeadingSuccesses(tools, uses) < |uses| {
      RunToolsFailure(tools, uses, log, nextId);
    }
  }
  // ---- Properties of one round ----

  /** A round only appends, and the messages it appends get consecutive fresh ids. */
  lemma {:induction false} RoundAppends(p: Provider.AIProvider, tools: seq<Tool>, log: seq<Message>, nextId: nat)
    ensures var s := Round(p, tools, log, nextId);
      && |log| <= |s.log| && s.log[..|log|] == log
      && s.nextId == nextId + |s.log| - |log|
      && (forall i :: |log| <= i < |s.log| ==> s.log[i].id == nextId + i - |log|)
      && (s.Continue? ==> |s.log| > |log|)
  {
    var c := p.complete(RoundRequest(tools, log));
    if c.Success? && c.value.toolUses != [] {
      var log1 := log + [NewAssistant(nextId, c.value.content)];
      RunToolsShape(tools, c.value.toolUses, log1, nextId + 1);
      var s := Round(p, tools, log, nextId);
      assert s.log[..|log1|] == log1;
      assert s.log[..|log|] == log1[..|log|];
    }
  }

  /** A provider failure ends the loop with `AIProvider` and appends nothing. */
  lemma RoundProviderFailure(p: Provider.AIProvider, tools: seq<Tool>, log: seq<Message>, nextId: nat)
    requires p.complete(RoundRequest(tools, log)).Failure?
    ensures Round(p, tools, log, nextId) ==
      Finish(Failure(AgentError.AIProvider(p.complete(RoundRequest(tools, log)).error.ToString())), log, nextId)
  {
  }

  /**
   * A reply appends one Assistant Text message holding its content (even when
   * empty); with no tool uses the round ends there with `Ok`.
   */
  lemma RoundOnReply(p: Provider.AIProvider, tools: seq<Tool>, log: seq<Message>, nextId: nat)
    requires p.complete(RoundRequest(tools, log)).Success?
    ensures var resp := p.complete(RoundRequest(tools, log)).value; var s := Round(p, tools, log, nextId);
      && |s.log| > |log| && s.log[|log|] == NewAssistant(nextId, resp.content)
      && (resp.toolUses == [] <==> s == Finish(Success(()), log + [NewAssistant(nextId, resp.content)], nextId + 1))
  {
    var resp := p.complete(RoundRequest(tools, log)).value;
    var log1 := log + [NewAssistant(nextId, resp.content)];
    if resp.toolUses != [] {
      RunToolsShape(tools, resp.toolUses, log1, nextId + 1);
      var s := Round(p, tools, log, nextId);
      assert s.log[..|log1|] == log1;
      assert s.log[|log|] == log1[|log|];
    }
  }

  /**
   * After the Assistant message come the tool messages in order; the round
   * continues exactly when the reply asked for tools and all of them ran:
   * 1 + 2k messages for k uses, and otherwise it ends with the first failing
   * use's error after 2 + 2k.
   */
  lemma RoundOnToolUses(p: Provider.AIProvider, tools: seq<Tool>, log: seq<Message>, nextId: nat)
    requires p.complete(RoundRequest(tools, log)).Success?
    requires p.complete(RoundRequest(tools, log)).value.toolUses != []
    ensures var resp := p.complete(RoundRequest(tools, log)).value; var s := Round(p, tools, log, nextId);
      var uses := resp.toolUses; var k := LeadingSuccesses(tools, uses);
      && (k == |uses| ==> s.Continue? && |s.log| == |log| + 1 + 2 * k)
      && (k < |uses| ==>
            s.Finish? && s.result == Failure(Invoke(tools, uses[k]).error) && |s.log| == |log| + 2 + 2 * k)
      && (forall j :: 0 <= j < k ==>
            && s.log[|log| + 1 + 2 * j] == NewToolUse(nextId + 1 + 2 * j, uses[j].id, uses[j].name, uses[j].input)
            && s.log[|log| + 2 + 2 * j] == NewToolResult(nextId + 2 + 2 * j, uses[j].id,
                 Invoke(tools, uses[j]).value.content, Invoke(tools, uses[j]).value.isError))
  {
    var uses := p.complete(RoundRequest(tools, log)).value.toolUses;
    RoundToolsEnd(p, tools, log, nextId);
    forall j | 0 <= j < LeadingSuccesses(tools, uses)
      ensures var s := Round(p, tools, log, nextId);
        && s.log[|log| + 1 + 2 * j] == NewToolUse(nextId + 1 + 2 * j, uses[j].id, uses[j].name, uses[j].input)
        && s.log[|log| + 2 + 2 * j] == NewToolResult(nextId + 2 + 2 * j, uses[j].id,
             Invoke(tools, uses[j]).value.content, Invoke(tools, uses[j]).value.isError)
    {
      RoundToolPairAt(p, tools, log, nextId, j);
    }
  }

  /** How a round with tool uses ends: it continues after 1+2k messages, or stops at the failing use after 2+2k. */
  lemma RoundToolsEnd(p: Provider.AIProvider, tools: seq<Tool>, log: seq<Message>, nextId: nat)
    requires p.complete(RoundRequest(tools, log)).Success?
    requires p.complete(RoundRequest(tools, log)).value.toolUses != []
    ensures var resp := p.complete(RoundRequest(tools, log)).value; var s := Round(p, tools, log, nextId);
      var uses := resp.toolUses; var k := LeadingSuccesses(tools, uses);
      && (k == |uses| ==> s.Continue? && |s.log| == |log| + 1 + 2 * k)
      && (k < |uses| ==>
            s.Finish? && s.result == Failure(Invoke(tools, uses[k]).error) && |s.log| == |log| + 2 + 2 * k)
  {
    var resp := p.complete(RoundRequest(tools, log)).value;
    var uses := resp.toolUses;
    var log1 := log + [NewAssistant(nextId, resp.content)];
    RoundWithTools(p, tools, log, nextId);
    RunToolsAppends(tools, uses, log1, nextId + 1);
    if LeadingSuccesses(tools, uses) < |uses| {
      RunToolsFailure(tools, uses, log1, nextId + 1);
    }
  }

  /** The pair of leading successful tool use j follows the Assistant message at its place. */
  lemma RoundToolPairAt(p: Provider.AIProvider, tools: seq<Tool>, log: seq<Message>, nextId: nat, j: nat)
    requires p.complete(RoundRequest(tools, log)).Success?
    requires p.complete(RoundRequest(tools, log)).value.toolUses != []
    requires j < LeadingSuccesses(tools, p.complete(RoundRequest(tools, log)).value.toolUses)
    ensures var uses := p.complete(RoundRequest(tools, log)).value.toolUses; var s := Round(p, tools, log, nextId);
      && |log| + 2 + 2 * j < |s.log|
      && s.log[|log| + 1 + 2 * j] == NewToolUse(nextId + 1 + 2 * j, uses[j].id, uses[j].name, uses[j].input)
      && s.log[|log| + 2 + 2 * j] == NewToolResult(nextId + 2 + 2 * j, uses[j].id,
           Invoke(tools, uses[j]).value.content, Invoke(tools, uses[j]).value.isError)
  {
    var resp := p.complete(RoundRequest(tools, log)).value;
    var uses := resp.toolUses;
    var log1 := log + [NewAssistant(nextId, resp.content)];
    RoundWithTools(p, tools, log, nextId);
    RunToolsPairAt(tools, uses, log1, nextId + 1, j);
    assert |log1| + 2 * j == |log| + 1 + 2 * j;
  }

  /** A reply with tool uses hands the log, with the Assistant message, to the inner loop. */
  lemma RoundWithTools(p: Provider.AIProvider, tools: seq<Tool>, log: seq<Message>, nextId: nat)
    requires p.complete(RoundRequest(tools, log)).Success?
    requires p.complete(RoundRequest(tools, log)).value.toolUses != []
    ensures var resp := p.complete(RoundRequest(tools, log)).value;
      var t := RunTools(tools, resp.toolUses, log + [NewAssistant(nextId, resp.content)], nextId + 1);
      Round(p, tools, log, nextId) == if t.error.Some? then Finish(Failure(t.error.value), t.log, t.nextId) else Continue(t.log, t.nextId)
  {
  }

  /**
   * A round that ends the loop with an error ends it with `AIProvider` exactly
   * when the provider call failed, and otherwise with a tool error.
   */
  lemma RoundErrorKind(p: Provider.AIProvider, tools: seq<Tool>, log: seq<Message>, nextId: nat)
    ensures var s := Round(p, tools, log, nextId);
      s.Finish? && s.result.Failure? ==>
        && (s.result.error.AIProvider? <==> p.complete(RoundRequest(tools, log)).Failure?)
        && (s.result.error.AIProvider? || s.result.error.ToolNotFound? || s.result.error.ToolExecution?)
  {
    var c := p.complete(RoundRequest(tools, log));
    if c.Success? && c.value.toolUses != [] {
      RoundOnToolUses(p, tools, log, nextId);
    }
  }

  // ---- Properties of the whole loop ----

  /** At most `maxIterations` provider calls are made: one per round. */
  lemma {:induction false} RoundsBound(p: Provider.AIProvider, tools: seq<Tool>, maxIterations: nat, iteration: nat, log: seq<Message>, nextId: nat)
    requires iteration <= maxIterations
    ensures var o := Rounds(p, tools, maxIterations, iteration, log, nextId);
      && |o.requests| <= maxIterations - iteration
      && (o.result == Failure(MaxIterationsReached) ==> |o.requests| == maxIterations - iteration)
    decreases maxIterations - iteration
  {
    if iteration < maxIterations && LastUserIndex(log).Some? {
      var s := Round(p, tools, log, nextId);
      RoundErrorKind(p, tools, log, nextId);
      if s.Continue? {
        RoundsBound(p, tools, maxIterations, iteration + 1, s.log, s.nextId);
      }
    }
  }

  /** The log is only ever extended, and the appended messages get consecutive fresh ids. */
  lemma {:induction false} RoundsAppends(p: Provider.AIProvider, tools: seq<Tool>, maxIterations: nat, iteration: nat, log: seq<Message>, nextId: nat)
    ensures var o := Rounds(p, tools, maxIterations, iteration, log, nextId);
      && |log| <= |o.log| && o.log[..|log|] == log
      && o.nextId == nextId + |o.log| - |log|
      && (forall i :: |log| <= i < |o.log| ==> o.log[i].id == nextId + i - |log|)
    decreases maxIterations - iteration
  {
    if iteration < maxIterations && LastUserIndex(log).Some? {
      var s := Round(p, tools, log, nextId);
      RoundAppends(p, tools, log, nextId);
      if s.Continue? {
        RoundsAppends(p, tools, maxIterations, iteration + 1, s.log, s.nextId);
        var o := Rounds(p, tools, maxIterations, iteration + 1, s.log, s.nextId);
        assert o.log[..|log|] == o.log[..|s.log|][..|log|];
      }
    }
  }

  /**
   * Run from a log whose ids are distinct and below the counter, the loop
   * leaves a log with the same property against the new counter: every
   * message of the session has its own id, as UUIDs give it.
   */
  lemma RoundsKeepIdsFresh(p: Provider.AIProvider, tools: seq<Tool>, maxIterations: nat, iteration: nat, log: seq<Message>, nextId: nat)
    requires FreshFor(log, nextId)
    ensures var o := Rounds(p, tools, maxIterations, iteration, log, nextId); FreshFor(o.log, o.nextId)
  {
    RoundsAppends(p, tools, maxIterations, iteration, log, nextId);
    var o := Rounds(p, tools, maxIterations, iteration, log, nextId);
    forall i | 0 <= i < |o.log|
      ensures o.log[i].id < o.nextId
    {
      if i < |log| {
        assert o.log[i] == log[i];
      }
    }
    forall i, j | 0 <= i < j < |o.log|
      ensures o.log[i].id != o.log[j].id
    {
      if j < |log| {
        assert o.log[i] == log[i] && o.log[j] == log[j];
      } else if i < |log| {
        assert o.log[i] == log[i];
      }
    }
  }

  /**
   * Every request carries the tool definitions, the system prompt and the
   * whole log as it stood at its round: the first one the log as given, each
   * later one a strictly longer prefix of the final log.
   */
  lemma {:induction false} RoundsRequests(p: Provider.AIProvider, tools: seq<Tool>, maxIterations: nat, iteration: nat, log: seq<Message>, nextId: nat)
    ensures var o := Rounds(p, tools, maxIterations, iteration, log, nextId);
      && (o.requests != [] ==> o.requests[0] == RoundRequest(tools, log))
      && (forall i :: 0 <= i < |o.requests| ==>
            && o.requests[i] == RoundRequest(tools, o.requests[i].messages)
            && |log| <= |o.requests[i].messages| <= |o.log|
            && o.requests[i].messages == o.log[..|o.requests[i].messages|])
      && (forall i :: 0 < i < |o.requests| ==> |o.requests[i - 1].messages| < |o.requests[i].messages|)
    decreases maxIterations - iteration
  {
    if iteration < maxIterations && LastUserIndex(log).Some? {
      var s := Round(p, tools, log, nextId);
      RoundAppends(p, tools, log, nextId);
      RoundsAppends(p, tools, maxIterations, iteration, log, nextId);
      if s.Continue? {
        RoundsRequests(p, tools, maxIterations, iteration + 1, s.log, s.nextId);
        var o := Rounds(p, tools, maxIterations, iteration, log, nextId);
        var o' := Rounds(p, tools, maxIterations, iteration + 1, s.log, s.nextId);
        assert o.requests == [RoundRequest(tools, log)] + o'.requests;
        forall i | 0 < i < |o.requests|
          ensures o.requests[i] == o'.requests[i - 1]
        {
        }
      }
    }
  }

  /** A log that already holds a User message still holds one once extended. */
  lemma UserPersists(log: seq<Message>, log': seq<Message>)
    requires |log| <= |log'| && log'[..|log|] == log
    requires LastUserIndex(log).Some?
    ensures LastUserIndex(log').Some?
  {
    var i := LastUserIndex(log).value;
    assert log'[i] == log[i];
  }

  /**
   * Once a round may start, `NoUserMessage` comes exactly when the log holds no
   * User message; it then appends nothing and calls no provider. Since the log
   * only grows, it can only happen in the first round.
   */
  lemma {:induction false} NoUserMessageExactly(p: Provider.AIProvider, tools: seq<Tool>, maxIterations: nat, iteration: nat, log: seq<Message>, nextId: nat)
    requires iteration < maxIterations
    ensures var o := Rounds(p, tools, maxIterations, iteration, log, nextId);
      && (o.result == Failure(NoUserMessage) <==> LastUserIndex(log).None?)
      && (o.result == Failure(NoUserMessage) ==> o.log == log && o.nextId == nextId && o.requests == [])
    decreases maxIterations - iteration
  {
    if LastUserIndex(log).Some? {
      var s := Round(p, tools, log, nextId);
      RoundAppends(p, tools, log, nextId);
      RoundErrorKind(p, tools, log, nextId);
      if s.Continue? && iteration + 1 < maxIterations {
        UserPersists(log, s.log);
        NoUserMessageExactly(p, tools, maxIterations, iteration + 1, s.log, s.nextId);
      }
    }
  }

  /**
   * How the loop ended, read off its last request: `Ok` only after a reply
   * with no tool uses, whose Assistant message is the last one logged; an
   * `AIProvider` error only when that request failed, with nothing appended.
   * Every error but the two checks comes after at least one provider call.
   */
  lemma {:induction false} RoundsLastRequest(p: Provider.AIProvider, tools: seq<Tool>, maxIterations: nat, iteration: nat, log: seq<Message>, nextId: nat)
    ensures var o := Rounds(p, tools, maxIterations, iteration, log, nextId);
      && (o.result != Failure(MaxIterationsReached) && o.result != Failure(NoUserMessage) ==> o.requests != [])
      && (o.result.Success? ==>
            var last := o.requests[|o.requests| - 1]; var c := p.complete(last);
            && c.Success? && c.value.toolUses == [] && o.nextId >= 1
            && o.log == last.messages + [NewAssistant(o.nextId - 1, c.value.content)])
      && (o.result.Failure? && o.result.error.AIProvider? ==>
            var last := o.requests[|o.requests| - 1]; var c := p.complete(last);
            && c.Failure? && o.result.error.detail == c.error.ToString() && o.log == last.messages)
    decreases maxIterations - iteration
  {
    if iteration < maxIterations && LastUserIndex(log).Some? {
      var s := Round(p, tools, log, nextId);
      if s.Continue? {
        RoundsLastRequest(p, tools, maxIterations, iteration + 1, s.log, s.nextId);
        RoundsLastStep(p, tools, maxIterations, iteration, log, nextId);
      } else {
        RoundEnding(p, tools, log, nextId);
      }
    }
  }

  /** A continuing round puts its request in front and leaves the outcome and the last request to the rest of the loop. */
  lemma RoundsLastStep(p: Provider.AIProvider, tools: seq<Tool>, maxIterations: nat, iteration: nat, log: seq<Message>, nextId: nat)
    requires iteration < maxIterations && LastUserIndex(log).Some?
    requires Round(p, tools, log, nextId).Continue?
    ensures var s := Round(p, tools, log, nextId);
      var o := Rounds(p, tools, maxIterations, iteration, log, nextId);
      var o' := Rounds(p, tools, maxIterations, iteration + 1, s.log, s.nextId);
      && o.result == o'.result && o.log == o'.log && o.nextId == o'.nextId
      && o.requests == [RoundRequest(tools, log)] + o'.requests
      && (o'.requests != [] ==> o.requests[|o.requests| - 1] == o'.requests[|o'.requests| - 1])
  {
  }

  /** How a round that ends the loop ended, read off its provider call. */
  lemma RoundEnding(p: Provider.AIProvider, tools: seq<Tool>, log: seq<Message>, nextId: nat)
    ensures var s := Round(p, tools, log, nextId); var c := p.complete(RoundRequest(tools, log));
      && (s.Finish? && s.result.Success? ==>
            c.Success? && c.value.toolUses == [] && s.log == log + [NewAssistant(nextId, c.value.content)] && s.nextId == nextId + 1)
      && (s.Finish? && s.result.Failure? && s.result.error.AIProvider? ==>
            c.Failure? && s.result.error.detail == c.error.ToString() && s.log == log)
  {
    RoundErrorKind(p, tools, log, nextId);
  }
}
