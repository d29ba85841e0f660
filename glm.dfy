/**
 * The GLM backend (matw-ai, providers/glm.rs): the mapping of the normalized
 * request onto GLM's chat format, and of GLM's reply, or its failure, back
 * onto the normalized response. The HTTP exchange between the two is a
 * parameter: a function from the outgoing call to what came back.
 */
module Glm {

  import opened Wrappers
  import opened Roles
  import Contents
  import opened Messages
  import opened Provider
  import opened Streaming

  newtype u16 = x: int | 0 <= x < 0x1_0000
  newtype usize = x: int | 0 <= x < 0x1_0000_0000_0000_0000

  const DefaultBaseUrl: string := "https://open.bigmodel.cn/api/paas/v4/"

  /** The configured backend; the HTTP client and its 120-second timeout are not modelled. */
  datatype GlmProvider = GlmProvider(apiKey: string, baseUrl: string)

  /** `GLMProvider::new`: the base URL falls back to the default. */
  function New(apiKey: string, baseUrl: Option<string>): (p: GlmProvider)
    ensures p.apiKey == apiKey
    ensures baseUrl.None? ==> p.baseUrl == DefaultBaseUrl
    ensures baseUrl.Some? ==> p.baseUrl == baseUrl.value
  {
    GlmProvider(apiKey, baseUrl.UnwrapOr(DefaultBaseUrl))
  }

  function Name(): string { "glm" }

  /** The unit tests on the name and the base URL. */
  lemma NameAndBaseUrl()
    ensures Name() == "glm"
    ensures New("test-key", None).baseUrl == "https://open.bigmodel.cn/api/paas/v4/"
    ensures New("test-key", Some("https://custom.api")).baseUrl == "https://custom.api"
  {
  }

  // ---- Request side ----

  datatype GlmMessage = GlmMessage(role: string, content: string)

  datatype GlmRequest = GlmRequest(model: string, messages: seq<GlmMessage>, stream: bool)

  /** The role names GLM is sent. */
  function RoleName(r: Role): string
  {
    match r
    case User => "user"
    case Assistant => "assistant"
    case System => "system"
    case Tool => "tool"
  }

  /** GLM's role names are the roles' own printed names. */
  lemma RoleNameIsDisplay(r: Role)
    ensures RoleName(r) == Display(r)
    ensures Parse(RoleName(r)) == Some(r)
  {
    ParseDisplay(r);
  }

  /** One message: its role name and its text, the empty string when it has none. */
  function ConvertMessage(m: Message): GlmMessage
  {
    GlmMessage(RoleName(m.role), Contents.AsStr(m.content).UnwrapOr(""))
  }

  /** `convert_messages`: same length, same order, each message mapped on its own. */
  function ConvertMessages(ms: seq<Message>): (r: seq<GlmMessage>)
    ensures |r| == |ms|
    ensures forall i :: 0 <= i < |ms| ==> r[i] == ConvertMessage(ms[i])
  {
    seq(|ms|, i requires 0 <= i < |ms| => ConvertMessage(ms[i]))
  }

  /** What each kind of content becomes: a tool call is sent as the empty string. */
  lemma ConvertedContent(m: Message)
    ensures m.content.Text? ==> ConvertMessage(m).content == m.content.text
    ensures m.content.ToolUse? ==> ConvertMessage(m).content == ""
    ensures m.content.ToolResult? ==> ConvertMessage(m).content == m.content.content
    ensures ConvertMessage(m).role == Display(m.role)
  {
    RoleNameIsDisplay(m.role);
  }

  /** The body posted: the request's model and converted log, not streamed. */
  function BuildRequest(req: CompletionRequest): (g: GlmRequest)
    ensures g.model == req.model && !g.stream
    ensures g.messages == ConvertMessages(req.messages)
    ensures |g.messages| == |req.messages|
    ensures forall i :: 0 <= i < |req.messages| ==>
      g.messages[i] == GlmMessage(Display(req.messages[i].role), Contents.AsStr(req.messages[i].content).UnwrapOr(""))
  {
    assert forall r: Role :: RoleName(r) == Display(r) by {
      forall r: Role ensures RoleName(r) == Display(r) { RoleNameIsDisplay(r); }
    }
    GlmRequest(req.model, ConvertMessages(req.messages), false)
  }

  /** The outgoing HTTP call: URL, headers and body. */
  datatype HttpCall = HttpCall(url: string, headers: seq<(string, string)>, body: GlmRequest)

  function Call(p: GlmProvider, req: CompletionRequest): (c: HttpCall)
    ensures c.url == p.baseUrl + "chat/completions"
    ensures ("Authorization", "Bearer " + p.apiKey) in c.headers
    ensures c.body == BuildRequest(req)
  {
    HttpCall(p.baseUrl + "chat/completions",
      [("Authorization", "Bearer " + p.apiKey), ("Content-Type", "application/json")],
      BuildRequest(req))
  }

  // ---- Response side ----

  datatype GlmResponseMessage = GlmResponseMessage(content: Option<string>)
  datatype GlmChoice = GlmChoice(message: GlmResponseMessage)
  datatype GlmUsage = GlmUsage(promptTokens: usize, completionTokens: usize)
  datatype GlmResponse = GlmResponse(choices: seq<GlmChoice>, usage: GlmUsage)

  /**
   * What the transport gave back: a send failure, or a status with the body
   * text (None when it could not be read) and the body decoded as JSON.
   */
  datatype HttpReply =
    | SendError(detail: string)
    | Reply(status: u16, body: Option<string>, decoded: Result<GlmResponse, string>)

  /** `as u32`: keeps the low 32 bits. */
  function TruncateU32(x: usize): (r: u32)
    ensures r as int == x as int % 0x1_0000_0000
    ensures x as int < 0x1_0000_0000 ==> r as int == x as int
  {
    (x as int % 0x1_0000_0000) as u32
  }

  /** The reply as a normalized response: first choice's content or "", no tool uses, `EndTurn`. */
  function Normalise(g: GlmResponse): (r: CompletionResponse)
    ensures g.choices != [] && g.choices[0].message.content.Some? ==> r.content == g.choices[0].message.content.value
    ensures g.choices == [] || g.choices[0].message.content.None? ==> r.content == ""
    ensures r.toolUses == [] && r.stopReason == EndTurn
    ensures r.usage.inputTokens as int == g.usage.promptTokens as int % 0x1_0000_0000
    ensures r.usage.outputTokens as int == g.usage.completionTokens as int % 0x1_0000_0000
  {
    var content := if g.choices == [] then None else g.choices[0].message.content;
    CompletionResponse(content.UnwrapOr(""), [], EndTurn,
      Usage(TruncateU32(g.usage.promptTokens), TruncateU32(g.usage.completionTokens)))
  }

  /** The decimal text of a number, without leading zeros (`to_string`). */
  function NatToString(n: nat): (s: string)
    ensures |s| >= 1 && IsDecimal(s)
    decreases n
  {
    if n < 10 then [DigitChar(n)] else NatToString(n / 10) + [DigitChar(n % 10)]
  }

  function DigitChar(d: nat): (c: char)
    requires d < 10
    ensures '0' <= c <= '9'
  {
    ('0' as int + d) as char
  }

  predicate IsDecimal(s: string)
  {
    forall i :: 0 <= i < |s| ==> '0' <= s[i] <= '9'
  }

  /** The number a string of decimal digits denotes. */
  function DecimalValue(s: string): nat
    requires IsDecimal(s)
    decreases |s|
  {
    if s == [] then 0 else DecimalValue(s[..|s| - 1]) * 10 + (s[|s| - 1] as int - '0' as int)
  }

  /** The status code text reads back as the status. */
  lemma {:induction false} DecimalRoundTrip(n: nat)
    ensures DecimalValue(NatToString(n)) == n
    decreases n
  {
    if n >= 10 {
      DecimalRoundTrip(n / 10);
      var s := NatToString(n);
      assert s[..|s| - 1] == NatToString(n / 10);
    }
  }

  predicate IsSuccess(status: u16) { 200 <= status < 300 }

  /** `complete` after the HTTP exchange: send failure, error status, undecodable body, or the normalized reply. */
  function Complete(p: GlmProvider, send: HttpCall -> HttpReply, req: CompletionRequest): Result<CompletionResponse, AIError>
  {
    match send(Call(p, req))
    case SendError(d) => Failure(RequestFailed(d))
    case Reply(status, body, decoded) =>
      if !IsSuccess(status) then Failure(APIError(NatToString(status as nat), body.UnwrapOr("")))
      else match decoded
        case Failure(d) => Failure(InvalidResponse(d))
        case Success(g) => Success(Normalise(g))
  }

  /** Each way `complete` can end, and the code of an error status reads back as that status. */
  lemma CompleteOutcomes(p: GlmProvider, send: HttpCall -> HttpReply, req: CompletionRequest)
    ensures var h := send(Call(p, req)); var r := Complete(p, send, req);
      && (h.SendError? ==> r == Failure(RequestFailed(h.detail)))
      && (h.Reply? && !IsSuccess(h.status) ==>
            && r.Failure? && r.error.APIError? && DecimalValue(r.error.code) == h.status as nat
            && r.error.message == h.body.UnwrapOr(""))
      && (h.Reply? && IsSuccess(h.status) && h.decoded.Failure? ==> r == Failure(InvalidResponse(h.decoded.error)))
      && (r.Success? <==> h.Reply? && IsSuccess(h.status) && h.decoded.Success?)
      && (r.Success? ==> r.value == Normalise(h.decoded.value))
  {
    var h := send(Call(p, req));
    if h.Reply? {
      DecimalRoundTrip(h.status as nat);
    }
  }

  /** The stream is a placeholder: one `Delta("GLM response")`, whatever the request. */
  function StreamCompletion(req: CompletionRequest): Result<seq<StreamItem>, AIError>
  {
    Success([Success(Delta("GLM response"))])
  }

  /** The backend as an `AIProvider`, given the transport. */
  function AsProvider(p: GlmProvider, send: HttpCall -> HttpReply): (a: Provider.AIProvider)
    ensures a.name == Name()
  {
    Provider.AIProvider(Name(), StreamCompletion, req => Complete(p, send, req))
  }

  /** Streamed, the placeholder delta is delivered once and becomes the appended message. */
  lemma StreamedOnce(p: GlmProvider, send: HttpCall -> HttpReply, log: seq<Message>, nextId: nat)
    ensures Streamed(AsProvider(p, send), log, nextId) ==
      StreamOutcome(Success(()), log + [NewAssistant(nextId, "GLM response")], nextId + 1, ["GLM response"])
  {
    var items: seq<StreamItem> := [Success(Delta("GLM response"))];
    assert items[1..] == [];
    assert Consume(items) == Fold(None, "GLM response", ["GLM response"]);
  }
}
