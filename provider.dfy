/**
 * The backend contract (matw-ai, provider.rs and error.rs): the normalized
 * request, response and stream chunk, the provider error, and the provider
 * itself as a value holding its two operations.
 */
module Provider {

  import opened Wrappers
  import opened Json
  import opened Messages

  newtype u32 = x: int | 0 <= x < 0x1_0000_0000

  /** A tool as advertised to the backend. */
  datatype ToolDefinition = ToolDefinition(name: string, description: string, parameters: Json)

  /** A tool call requested by the backend. */
  datatype ToolUse = ToolUse(id: string, name: string, input: Json)

  /** The request; the `f32` temperature is kept as a real. */
  datatype CompletionRequest = CompletionRequest(
    messages: seq<Message>,
    tools: seq<ToolDefinition>,
    model: string,
    maxTokens: Option<u32>,
    temperature: Option<real>,
    systemPrompt: Option<string>)

  datatype StopReason = EndTurn | MaxTokens | StopSequence | ToolUse

  datatype Usage = Usage(inputTokens: u32, outputTokens: u32)

  datatype CompletionResponse = CompletionResponse(
    content: string,
    toolUses: seq<ToolUse>,
    stopReason: StopReason,
    usage: Usage)

  /** One increment of a streamed completion. */
  datatype Chunk = Delta(text: string) | ToolUse(use: ToolUse) | Done

  /** A provider failure (error.rs), with its `Display` text. */
  datatype AIError =
    | RequestFailed(detail: string)
    | APIError(code: string, message: string)
    | InvalidResponse(detail: string)
    | NotConfigured(detail: string)
    | StreamInterrupted
    | AuthenticationFailed
    | RateLimitExceeded
  {
    function ToString(): string
    {
      match this
      case RequestFailed(d) => "API request failed: " + d
      case APIError(c, m) => "API returned error: " + c + " - " + m
      case InvalidResponse(d) => "Invalid response format: " + d
      case NotConfigured(d) => "Provider not configured: " + d
      case StreamInterrupted => "Stream interrupted"
      case AuthenticationFailed => "Authentication failed"
      case RateLimitExceeded => "Rate limit exceeded"
    }
  }

  /** An error's text ends with what it carries, after its fixed prefix. */
  lemma ErrorDisplayShape(e: AIError)
    ensures var s := e.ToString();
      && (e.RequestFailed? || e.InvalidResponse? || e.NotConfigured? ==>
            |e.detail| < |s| && s[|s| - |e.detail|..] == e.detail)
      && (e.APIError? ==>
            "API returned error: " + e.code + " - " <= s && s[|s| - |e.message|..] == e.message)
  {
  }

  type StreamItem = Result<Chunk, AIError>

  /**
   * `ChunkStream`: a wrapper that forwards the items of the stream it wraps.
   * The wrapped stream is finite and can be read once, front to back.
   */
  class ChunkStream {
    const inner: seq<StreamItem>
    var pos: nat

    ghost predicate Valid()
      reads this
    {
      pos <= |inner|
    }

    /** What is still to come. */
    ghost function Remaining(): seq<StreamItem>
      reads this
      requires Valid()
    {
      inner[pos..]
    }

    constructor (inner: seq<StreamItem>)
      ensures Valid() && this.inner == inner && Remaining() == inner
    {
      this.inner := inner;
      pos := 0;
    }

    /** `poll_next`: the next item of the wrapped stream, unchanged, or None at its end. */
    method PollNext() returns (item: Option<StreamItem>)
      requires Valid()
      modifies this
      ensures Valid()
      ensures old(Remaining()) == [] ==> item == None && Remaining() == []
      ensures old(Remaining()) != [] ==> item == Some(old(Remaining())[0]) && Remaining() == old(Remaining())[1..]
    {
      if pos < |inner| {
        item := Some(inner[pos]);
        pos := pos + 1;
      } else {
        item := None;
      }
    }
  }

  /**
   * `AIProvider`: a name, a fallible streamed completion (the items its stream
   * will yield) and a fallible one-shot completion. Each operation is a
   * function of the request.
   */
  datatype AIProvider = AIProvider(
    name: string,
    streamCompletion: CompletionRequest -> Result<seq<StreamItem>, AIError>,
    complete: CompletionRequest -> Result<CompletionResponse, AIError>)
}
