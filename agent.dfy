/**
 * The agent (matw-agent, agent.rs): a provider, a tool list and the iteration
 * bound, and `Process`, the loop that extends a session's log in place.
 */
module AgentLoop {

  import opened Wrappers
  import opened Roles
  import Contents
  import opened Messages
  import opened Sessions
  import opened Tools
  import opened Provider
  import opened AgentSpec

  class Agent {
    const provider: Provider.AIProvider
    const tools: seq<Tool>
    const maxIterations: nat

    /** `Agent::new`: the iteration bound is fixed at 10. */
    constructor (provider: Provider.AIProvider, tools: seq<Tool>)
      ensures this.provider == provider && this.tools == tools && maxIterations == DefaultMaxIterations
    {
      this.provider := provider;
      this.tools := tools;
      maxIterations := DefaultMaxIterations;
    }

    /** `process`: runs the loop on the session's log, appending in place. */
    method Process(session: Session, ids: IdSupply) returns (r: Result<(), AgentError>, ghost requests: seq<CompletionRequest>)
      modifies session, ids
      ensures var o := Rounds(provider, tools, maxIterations, 0, old(session.messages), old(ids.next));
        r == o.result && session.messages == o.log && ids.next == o.nextId && requests == o.requests
      ensures session.state == old(session.state)
    {
      ghost var total := Rounds(provider, tools, maxIterations, 0, session.messages, ids.next);
      var iteration: nat := 0;
      requests := [];
      while true
        invariant session.state == old(session.state)
        invariant var o := Rounds(provider, tools, maxIterations, iteration, session.messages, ids.next);
          o.result == total.result && o.log == total.log && o.nextId == total.nextId && requests + o.requests == total.requests
        decreases maxIterations - iteration
      {
        if iteration >= maxIterations {
          r := Failure(MaxIterationsReached);
          return;
        }
        var lastUser := LastUserIndex(session.messages);
        if lastUser.None? {
          r := Failure(NoUserMessage);
          return;
        }
        requests := requests + [RoundRequest(tools, session.messages)];
        var finished, failure := RunRound(session, ids);
        if failure.Some? {
          r := Failure(failure.value);
          return;
        }
        if finished {
          break;
        }
        iteration := iteration + 1;
      }
      r := Success(());
    }

    /** The body of one round, after the two checks. */
    method RunRound(session: Session, ids: IdSupply) returns (finished: bool, failure: Option<AgentError>)
      modifies session, ids
      ensures Round(provider, tools, old(session.messages), old(ids.next)) ==
        if failure.Some? then Finish(Failure(failure.value), session.messages, ids.next)
        else if finished then Finish(Success(()), session.messages, ids.next)
        else Continue(session.messages, ids.next)
      ensures session.state == old(session.state)
    {
      var request := RoundRequest(tools, session.messages);
      var response := provider.complete(request);
      if response.Failure? {
        return true, Some(AgentError.AIProvider(response.error.ToString()));
      }
      var resp := response.value;
      var assistant := Create(ids, Assistant, Contents.Text(resp.content));
      session.AddMessage(assistant);
      if resp.toolUses == [] {
        return true, None;
      }
      failure := RunToolUses(session, ids, resp.toolUses);
      finished := failure.Some?;
    }

    /** The inner `for`: each tool use in order, stopping at the first fatal error. */
    method RunToolUses(session: Session, ids: IdSupply, uses: seq<Provider.ToolUse>) returns (failure: Option<AgentError>)
      modifies session, ids
      ensures RunTools(tools, uses, old(session.messages), old(ids.next)) == ToolsOutcome(failure, session.messages, ids.next)
      ensures session.state == old(session.state)
    {
      for j := 0 to |uses|
        invariant session.state == old(session.state)
        invariant RunTools(tools, uses[j..], session.messages, ids.next) == RunTools(tools, uses, old(session.messages), old(ids.next))
      {
        var u := uses[j];
        assert uses[j..][1..] == uses[j + 1..];
        var useMessage := Create(ids, Assistant, Contents.ToolUse(u.id, u.name, u.input));
        session.AddMessage(useMessage);
        var found := FindTool(tools, u.name);
        if found.None? {
          return Some(ToolNotFound(u.name));
        }
        var output := tools[found.value].execute(u.input);
        if output.Failure? {
          return Some(ToolExecution(output.error.ToString()));
        }
        var result := Create(ids, Role.Tool, Contents.ToolResult(u.id, output.value.content, output.value.isError));
        session.AddMessage(result);
      }
      failure := None;
    }
  }
}
