/**
 * The Claude backend (matw-ai, providers/claude.rs): a placeholder whose
 * completion and stream are constants, whatever the request.
 */
module Claude {

  import opened Wrappers
  import opened Messages
  import Tools
  import opened Provider
  import opened AgentSpec
  import opened Streaming

  const DefaultBaseUrl: string := "https://api.anthropic.com/v1"
  const ReplyText: string := "Claude response"

  /** The configured backend; the key and URL are stored but unused, and the HTTP client is not modelled. */
  datatype ClaudeProvider = ClaudeProvider(apiKey: string, baseUrl: string)

  /** `ClaudeProvider::new`: the base URL falls back to the default. */
  function New(apiKey: string, baseUrl: Option<string>): (p: ClaudeProvider)
    ensures p.apiKey == apiKey
    ensures baseUrl.None? ==> p.baseUrl == DefaultBaseUrl
    ensures baseUrl.Some? ==> p.baseUrl == baseUrl.value
  {
    ClaudeProvider(apiKey, baseUrl.UnwrapOr(DefaultBaseUrl))
  }

  function Name(): string { "claude" }

  function Complete(req: CompletionRequest): Result<CompletionResponse, AIError>
  {
    Success(CompletionResponse(ReplyText, [], EndTurn, Usage(0, 0)))
  }

  function StreamCompletion(req: CompletionRequest): Result<seq<StreamItem>, AIError>
  {
    Success([Success(Delta(ReplyText))])
  }

  function AsProvider(p: ClaudeProvider): Provider.AIProvider
  {
    Provider.AIProvider(Name(), StreamCompletion, Complete)
  }

  /** The unit test on the name. */
  lemma ProviderName()
    ensures AsProvider(New("test-key", None)).name == "claude"
  {
  }

  /**
   * Driven by this backend, the agent finishes after one round: given a log
   * with a User message it makes one provider call and appends exactly one
   * Assistant message holding the constant reply.
   */
  lemma AgentOneRound(p: ClaudeProvider, tools: seq<Tools.Tool>, maxIterations: nat, log: seq<Message>, nextId: nat)
    requires 0 < maxIterations
    requires LastUserIndex(log).Some?
    ensures Rounds(AsProvider(p), tools, maxIterations, 0, log, nextId) ==
      Outcome(Success(()), log + [NewAssistant(nextId, "Claude response")], nextId + 1, [RoundRequest(tools, log)])
  {
    RoundOnReply(AsProvider(p), tools, log, nextId);
  }

  /**
   * Streamed, the one delta is delivered once and becomes the appended
   * message; the stream has no `Done` and ends by running out.
   */
  lemma StreamedOnce(p: ClaudeProvider, log: seq<Message>, nextId: nat)
    ensures Streamed(AsProvider(p), log, nextId) ==
      StreamOutcome(Success(()), log + [NewAssistant(nextId, "Claude response")], nextId + 1, ["Claude response"])
  {
    var items := [Success(Delta(ReplyText))];
    assert items[1..] == [];
    assert Consume(items) == Fold(None, ReplyText, [ReplyText]);
  }
}
