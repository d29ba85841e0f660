# matw: a verified model of the conversation and tool-calling core

matw is a terminal coding assistant written in Rust. A session keeps an
append-only log of messages. An agent sends that log to an AI backend,
appends the reply, runs the tools the reply asks for, appends their results
and asks again, for at most ten rounds. This project models that core in
Dafny and proves what it promises. The model covers:

- the agent loop (`matw-agent`) and its streamed variant;
- the conversation data model (`matw-core`): roles, contents, messages,
  contexts and sessions;
- the backend contract (`matw-ai`), with the GLM mapping and the Kimi and
  Claude placeholder backends;
- the tool contract (`matw-tools`);
- the JSON-RPC 2.0 tool server, its wire types and its bridge (`matw-mcp`);
- the input state machine of the terminal app (`matw-tui`).

Layout:

- `wrappers.dfy`, `json.dfy`: `Option`/`Result` and an opaque JSON value
  standing for `serde_json::Value`.
- `role.dfy`, `content.dfy`, `message.dfy`, `context.dfy`, `session.dfy`: the
  core data model. A `Session` and a `Context` are classes whose methods update
  their fields in place. Messages are values. Fresh ids come from an `IdSupply`
  counter, which stands for UUID generation.
- `tool.dfy`, `provider.dfy`: the tool and backend contracts. A backend is a
  value holding its two operations as functions of the request; a tool holds
  `execute` as a function of its input.
- `agent_spec.dfy`: the loop as functions (`Round`, `Rounds`, `RunTools`) and
  the lemmas about them. `agent.dfy`: the `Agent` class and its imperative
  `Process` loop, proved equal to those functions.
- `streaming.dfy`: the streamed fold, as a function `Consume` and as the
  imperative `ProcessStreaming` over a `ChunkStream`. The `on_delta` callback
  is modelled by the sequence of texts it receives.
- `glm.dfy`, `kimi.dfy`, `claude.dfy`: the three backends. GLM's HTTP
  exchange is a parameter, a function from the outgoing call to the reply.
- `protocol.dfy`, `server.dfy`, `bridge.dfy`: the tool server.
- `app.dfy`: the `App` class of the terminal UI.

The backend is modelled as a function of the request rather than as a list of
scripted replies. Within one `process` call every request carries a strictly
longer log than the one before (`AgentSpec.RoundsRequests`). So no two rounds
send the same request, and a function of the request is as general as a
scripted list.

## Model

| member | source | states |
|---|---|---|
| Roles.Parse | crates/matw-core/src/role.rs:5-11 | a role is parsed only from its own lowercase name |
| Roles.Serialize | crates/matw-core/src/role.rs:5 | the serialized role is the lowercase name in quotes |
| Roles.Deserialize | crates/matw-core/src/role.rs:36-39 | a role is read back only from exactly its own serialized text |
| Roles.ParseDisplay | crates/matw-core/src/role.rs:13-22 | printing (`Display`, the `fmt` impl) gives "user", "assistant", "system" or "tool", and parsing the printed name gives the role back |
| Roles.DisplayInjective | crates/matw-core/src/role.rs:15-20 | distinct roles print differently |
| Roles.SerializeRoundTrip | crates/matw-core/src/role.rs:29-39 | deserializing a serialized role gives the role back |
| Contents.AsStr | crates/matw-core/src/content.rs:21-27 | absent exactly for ToolUse; the text of a Text, the result text of a ToolResult |
| Contents.ToolName | crates/matw-core/src/content.rs:29-34 | present exactly for ToolUse, and then the tool's name |
| Contents.IsError | crates/matw-core/src/content.rs:36-38 | true exactly for a ToolResult whose flag is set |
| Contents.ProjectionsExclusive | crates/matw-core/src/content.rs:21-38 | exactly one of `as_str` and `tool_name` is present; an error content always has text |
| Messages.ConstructorShapes | crates/matw-core/src/message.rs:16-45 | each of `NewUser`, `NewAssistant`, `NewSystem`, `NewToolUse` and `NewToolResult` builds, through `New`, the message with the given id, its role (a tool call is authored by Assistant, a tool result by Tool), exactly the given content (the Text of the text; the call id, name and input; the call id, text and flag) and empty metadata, with the predicates on it |
| Messages.IdSupply.Fresh | crates/matw-core/src/message.rs:19 | hands out the current counter value and moves the counter past it |
| Messages.Create | crates/matw-core/src/message.rs:17-25 | the new message takes the counter's current id, which the counter then moves past, and has the given role and content and empty metadata |
| Messages.AppendFresh | crates/matw-core/src/message.rs:19 | a log whose ids are distinct and below the counter keeps that property when a message with the counter's id is appended and the counter advances |
| Messages.CreateTwo | crates/matw-core/src/message.rs:117-122 | two messages created one after the other have distinct ids |
| Messages.Encode | crates/matw-core/src/message.rs:7-14 | the encoded message has a "role" field holding the role's lowercase name |
| Messages.ContentRoundTrip | crates/matw-core/src/content.rs:5-18 | `DecodeContent`, serde's untagged decoding that tries the variants in order, gives back every content variant from its encoding |
| Messages.MessageRoundTrip | crates/matw-core/tests/integration_test.rs:154-162 | `Decode` of an encoded message gives back its id, role, content and metadata |
| Contexts.Context.constructor | crates/matw-core/src/context.rs:21-28 | keeps the working directory; no git info, empty environment, no CLAUDE.md |
| Contexts.Context.WithDetails | crates/matw-core/src/context.rs:30-37 | keeps the given git info and CLAUDE.md; the environment is empty |
| Contexts.Context.SetGitInfo | crates/matw-core/src/context.rs:47-49 | git info becomes the value; the other fields are unchanged |
| Contexts.Context.SetEnv | crates/matw-core/src/context.rs:55-57 | the key maps to the value, no other key is added or changed, the other fields are unchanged |
| Contexts.Context.SetEnvironment | crates/matw-core/src/context.rs:59-61 | the environment becomes the given map; the other fields are unchanged |
| Contexts.Context.SetClaudeMd | crates/matw-core/src/context.rs:67-69 | CLAUDE.md becomes the value; the other fields are unchanged |
| Sessions.Session.constructor | crates/matw-core/src/session.rs:22-29 | a fresh id, no messages, state Active, a new context for the working directory |
| Sessions.Session.MessageCount | crates/matw-core/src/session.rs:47-49 | the number of logged messages |
| Sessions.Session.ToAiRequest | crates/matw-core/src/session.rs:75-77 | every message, in log order |
| Sessions.Session.AddMessage | crates/matw-core/src/session.rs:59-61 | appends at the end: the count grows by one and the earlier messages are unchanged |
| Sessions.Session.Close | crates/matw-core/src/session.rs:55-65 | state Closed from any state, so `IsActive` is false; messages unchanged |
| Sessions.Session.Pause | crates/matw-core/src/session.rs:67-69 | state Paused from any state, not active, messages unchanged |
| Sessions.Session.Resume | crates/matw-core/src/session.rs:71-73 | state Active from any state, active, messages unchanged |
| Sessions.NewTwo | crates/matw-core/src/session.rs:105-110 | two new sessions have distinct ids, and both are empty and active |
| Tools.DisplayShape | crates/matw-tools/src/tool.rs:10-23 | the `Display` text (`ToolError.ToString`) of an error ends with its detail, and a NotFound error's text starts with "Not found" |
| Tools.DisplayInjective | crates/matw-tools/src/tool.rs:12-22 | distinct errors print differently: the kind and the detail can be read back |
| Provider.ErrorDisplayShape | crates/matw-ai/src/error.rs:5-27 | the `Display` text (`AIError.ToString`) of a request, response or configuration failure ends with its detail; an API error's text starts with "API returned error: ", the code and " - ", and ends with the message |
| Provider.ChunkStream.constructor | crates/matw-ai/src/provider.rs:61-65 | the wrapper starts at the beginning of the wrapped stream |
| Provider.ChunkStream.PollNext | crates/matw-ai/src/provider.rs:67-76 | yields the wrapped stream's next item unchanged and advances, or None at its end |
| AgentSpec.ErrorDisplayInjective | crates/matw-agent/src/agent.rs:105-121 | distinct `AgentError`s have distinct `Display` texts (`AgentError.ToString`), so the text identifies the kind and its detail |
| AgentSpec.ToolDefs | crates/matw-agent/src/agent.rs:40-46 | one definition per tool, in order, with its name, description and schema |
| AgentSpec.LastUserIndex | crates/matw-agent/src/agent.rs:33-37 | the position of the last User message, or none when the log has no User message |
| AgentSpec.FindTool | crates/matw-agent/src/agent.rs:75-77 | the first tool with the name, or none when no tool has it |
| AgentSpec.RunToolsShape | crates/matw-agent/src/agent.rs:66-88 | `RunTools`, the inner loop where each use goes through `Invoke` (look the tool up, then execute it): with k leading successful uses, k ToolUse/ToolResult pairs in order with matching call ids, output content and flag; the first failing use leaves its ToolUse message and its error; the ids are consecutive values of the counter |
| AgentSpec.RoundAppends | crates/matw-agent/src/agent.rs:58-92 | `Round`, one pass of the loop body, only appends, with ids taken in order from the counter, and a continuing round appends something |
| AgentSpec.RoundProviderFailure | crates/matw-agent/src/agent.rs:57-59 | a provider failure ends the loop with `AIProvider` of the error text and appends nothing |
| AgentSpec.RoundOnReply | crates/matw-agent/src/agent.rs:61-95 | a reply appends one Assistant Text message with its content, even when empty; the round ends with Ok exactly when the reply has no tool uses |
| AgentSpec.RoundOnToolUses | crates/matw-agent/src/agent.rs:65-91 | with k uses that all succeed the round continues after 1+2k messages; otherwise it ends with the first failing use's error after 2+2k |
| AgentSpec.RoundErrorKind | crates/matw-agent/src/agent.rs:57-80 | a round's error is `AIProvider` exactly when the provider call failed, otherwise `ToolNotFound` or `ToolExecution` |
| AgentSpec.RoundsBound | crates/matw-agent/src/agent.rs:26-30 | `Rounds`, the `process` loop from a given iteration, makes at most `max_iterations` provider calls, and exactly that many when the result is `MaxIterationsReached` |
| AgentSpec.RoundsAppends | crates/matw-agent/src/agent.rs:26-96 | the old log is a prefix of the final one, and the appended messages have consecutive ids taken from the counter |
| AgentSpec.RoundsKeepIdsFresh | crates/matw-agent/src/agent.rs:26-96 | from a log whose ids are distinct and below the counter, the final log's ids are distinct and below the final counter, so every message of the session has its own id |
| AgentSpec.RoundsRequests | crates/matw-agent/src/agent.rs:48-55 | every request (`RoundRequest`) carries the tool definitions, model "default", 4096 tokens, temperature 0.7, the system prompt and the whole log at its round; the first carries the given log and each later one a strictly longer prefix of the final log |
| AgentSpec.NoUserMessageExactly | crates/matw-agent/src/agent.rs:32-37 | once a round may start, `NoUserMessage` comes exactly when the log has no User message, and then nothing is appended and no request is made |
| AgentSpec.RoundsLastRequest | crates/matw-agent/src/agent.rs:57-98 | Ok only after a reply with no tool uses whose Assistant message ends the log; `AIProvider` only when the last request failed, with nothing appended in that round |
| AgentLoop.Agent.constructor | crates/matw-agent/src/agent.rs:15-21 | keeps provider and tools; the iteration bound is 10 |
| AgentLoop.Agent.Process | crates/matw-agent/src/agent.rs:23-99 | the result, the new log, the ids used and the requests sent are those of `Rounds` from iteration 0; the session state is unchanged |
| AgentLoop.Agent.RunRound | crates/matw-agent/src/agent.rs:39-95 | one round in place, equal to `Round` on the old log |
| AgentLoop.Agent.RunToolUses | crates/matw-agent/src/agent.rs:66-88 | the inner loop in place, equal to `RunTools` on the old log |
| Streaming.StreamRequest | crates/matw-agent/src/streaming.rs:12-19 | the full log, no tools, model "default", 4096 tokens, temperature 0.7, no system prompt |
| Streaming.FirstStop | crates/matw-agent/src/streaming.rs:30-41 | the position of the first `Done` or error item, or the length when there is none |
| Streaming.ConsumeShape | crates/matw-agent/src/streaming.rs:30-42 | in the fold `Consume`, the callback receives exactly the texts of the Delta items before the first stop; the fold fails exactly when that stop is an error; otherwise the text is the concatenation of what was delivered |
| Streaming.DoneIgnoresRest | crates/matw-agent/src/streaming.rs:39 | nothing after a `Done` chunk is read |
| Streaming.ToolUseIgnored | crates/matw-agent/src/streaming.rs:40 | a ToolUse chunk changes nothing |
| Streaming.StreamedShape | crates/matw-agent/src/streaming.rs:21-47 | in `Streamed`, an error opening the stream or inside it gives `AIProvider` and appends nothing; a success appends exactly one Assistant message holding the concatenated deltas |
| Streaming.StreamedKeepsIdsFresh | crates/matw-agent/src/streaming.rs:44-47 | streaming keeps the log's ids distinct and below the counter |
| Streaming.FoldStream | crates/matw-agent/src/streaming.rs:30-42 | reading an opened stream to its first stop gives exactly `Consume` of its items: the error, the text and the delivered deltas |
| Streaming.ProcessStreaming | crates/matw-agent/src/streaming.rs:7-48 | the result, new log, ids used and delivered texts are those of `Streamed` on the old log; the session state is unchanged |
| Glm.New | crates/matw-ai/src/providers/glm.rs:18-29 | keeps the key; the base URL is the given one, or the default when none is given |
| Glm.NameAndBaseUrl | crates/matw-ai/src/providers/glm.rs:158-174 | name "glm", the default base URL, and a custom base URL kept as given |
| Glm.RoleNameIsDisplay | crates/matw-ai/src/providers/glm.rs:39-45 | the role names sent are the roles' printed names and parse back to the role |
| Glm.ConvertMessages | crates/matw-ai/src/providers/glm.rs:35-49 | same length and order, each message converted on its own |
| Glm.ConvertedContent | crates/matw-ai/src/providers/glm.rs:46 | a Text sends its text, a ToolResult its result text, a ToolUse the empty string |
| Glm.BuildRequest | crates/matw-ai/src/providers/glm.rs:72-76 | the request's model and all its messages, not streamed |
| Glm.Call | crates/matw-ai/src/providers/glm.rs:78-84 | posts to base URL + "chat/completions" with a Bearer key header and the built body |
| Glm.TruncateU32 | crates/matw-ai/src/providers/glm.rs:110-113 | the `as u32` cast keeps the value modulo 2^32, and smaller values unchanged |
| Glm.Normalise | crates/matw-ai/src/providers/glm.rs:102-114 | the first choice's content or "", no tool uses, `EndTurn`, token counts modulo 2^32 |
| Glm.DecimalRoundTrip | crates/matw-ai/src/providers/glm.rs:92 | the status code text reads back as the status number |
| Glm.CompleteOutcomes | crates/matw-ai/src/providers/glm.rs:68-115 | in `Complete`, a send failure gives `RequestFailed`; a non-2xx status gives `APIError` with the status as its code and the body, or "", as its message; an undecodable body gives `InvalidResponse`; otherwise the normalized reply |
| Glm.AsProvider | crates/matw-ai/src/providers/glm.rs:54-56 | the backend's name is "glm"; its operations are `Complete` and `StreamCompletion` |
| Glm.StreamedOnce | crates/matw-ai/src/providers/glm.rs:58-66 | streaming through the placeholder `StreamCompletion` delivers one "GLM response" delta and appends it as the one Assistant message |
| Kimi.New | crates/matw-ai/src/providers/kimi.rs:16-27 | keeps the key; the base URL is the given one, or the default when none is given |
| Kimi.NameAndBaseUrl | crates/matw-ai/src/providers/kimi.rs:73-83 | name "kimi" and default base URL "https://api.moonshot.cn/v1" |
| Kimi.AgentOneRound | crates/matw-ai/src/providers/kimi.rs:50-65 | for the backend `AsProvider` builds over the placeholder `Complete`: with a User message in the log, the agent makes one call, appends one Assistant "Kimi response" message and returns Ok |
| Kimi.StreamedOnce | crates/matw-ai/src/providers/kimi.rs:40-48 | streaming through the placeholder `StreamCompletion` delivers one "Kimi response" delta, with no `Done`, and appends it as the one Assistant message |
| Claude.New | crates/matw-ai/src/providers/claude.rs:16-27 | keeps the key; the base URL is the given one, or the default when none is given |
| Claude.ProviderName | crates/matw-ai/src/providers/claude.rs:32-34 | name "claude" |
| Claude.AgentOneRound | crates/matw-ai/src/providers/claude.rs:46-59 | for the backend `AsProvider` builds over the placeholder `Complete`: with a User message in the log, the agent makes one call, appends one Assistant "Claude response" message and returns Ok |
| Claude.StreamedOnce | crates/matw-ai/src/providers/claude.rs:36-44 | streaming through the placeholder `StreamCompletion` delivers one "Claude response" delta and appends it as the one Assistant message |
| McpProtocol.RequestToJson | crates/matw-mcp/src/protocol.rs:8-15 | the object names its method and has a "params" key exactly when params are present |
| McpProtocol.ErrorToJson | crates/matw-mcp/src/protocol.rs:29-35 | the object carries the code, and has a "data" key exactly when data is present |
| McpProtocol.ResponseToJson | crates/matw-mcp/src/protocol.rs:18-26 | the object echoes the id, and has "result" and "error" keys exactly when each is present, holding the result and the encoded error |
| McpProtocol.ContentItemToJson | crates/matw-mcp/src/protocol.rs:62-71 | tagged by a "type" field of "text", "image" or "resource" |
| McpProtocol.TypeTagInjective | crates/matw-mcp/src/protocol.rs:64-71 | the three tags are distinct |
| McpProtocol.ContentItemRoundTrip | crates/matw-mcp/src/protocol.rs:61-71 | `ContentItemFromJson`, which reads the "type" tag and then the variant's fields, gives back every encoded content item |
| McpProtocol.ToolResultToJson | crates/matw-mcp/src/protocol.rs:55-59 | exactly "content" (the items in order) and "is_error" |
| McpProtocol.ToolCallFromJson | crates/matw-mcp/src/protocol.rs:48-52 | a decoded object call has a string "name" and an "arguments" key |
| McpProtocol.ToolCallRoundTrip | crates/matw-mcp/src/protocol.rs:48-52 | `ToolCallFromJson` of `ToolCallToJson`, the struct's object form, gives the call back |
| McpProtocol.RequestNamesMethod | crates/matw-mcp/src/protocol.rs:77-88 | the serialized tools/list request has `"method": "tools/list"` and no params |
| ToolServer.Listing | crates/matw-mcp/src/server.rs:59-70 | `{"tools": [...]}` with one entry per name of the order, each the `{name, description, input_schema}` object `ToolInfoToJson` gives for that tool |
| ToolServer.ListingOrderLength | crates/matw-mcp/src/server.rs:61 | a listing has one entry per registered tool |
| ToolServer.ListingEntries | crates/matw-mcp/src/server.rs:59-70 | a listing holds exactly the registered tools' entries |
| ToolServer.ListingsAgree | crates/matw-mcp/src/server.rs:59-70 | two listings of the same registry have the same length and the same set of entries, whatever the map order |
| ToolServer.ListingNames | crates/matw-mcp/src/server.rs:59-70 | in a registry keyed by name, every listing entry's "name" is the key it was listed under |
| ToolServer.CallTool | crates/matw-mcp/src/server.rs:72-102 | -32602 "Invalid params" with no params, -32602 "Invalid tool call" when they do not decode, -32602 "Tool not found: name" for an unknown name, -32603 with the tool's message on failure, else `{content, is_error: false}` |
| ToolServer.CallToolCodes | crates/matw-mcp/src/server.rs:72-102 | a failed call has code -32602 or -32603 and no data, -32603 exactly for a failing tool, and a success always reports `is_error: false` |
| ToolServer.Envelope | crates/matw-mcp/src/server.rs:43-56 | jsonrpc "2.0", the request's id, and exactly one of result and error |
| ToolServer.McpServer.constructor | crates/matw-mcp/src/server.rs:21-25 | the registry starts empty |
| ToolServer.McpServer.RegisterTool | crates/matw-mcp/src/server.rs:27-30 | stores the tool under its name, replacing any earlier tool of that name |
| ToolServer.McpServer.ListTools | crates/matw-mcp/src/server.rs:59-70 | lists every registered tool once, in some order, each entry carrying its registry key as its name |
| ToolServer.McpServer.HandleRequest | crates/matw-mcp/src/server.rs:32-57 | tools/list gives a listing, tools/call the `call_tool` outcome, any other method -32601 "Method not found"; jsonrpc "2.0", the id echoed, exactly one of result and error |
| Bridge.Adapt | crates/matw-mcp/src/bridge.rs:20-30 | name, description and schema are the wrapped tool's |
| Bridge.AdaptedRun | crates/matw-mcp/src/bridge.rs:32-39 | for the adapted `AdaptedExecute`, success gives exactly one Text item with the output content; failure gives the error's display text |
| Bridge.IsErrorDropped | crates/matw-mcp/src/bridge.rs:36-38 | the tool's own error flag does not reach the server |
| Bridge.LastRegistrationWins | crates/matw-mcp/src/bridge.rs:42-47 | in the registry `Registered` builds from a tool list, among same-named tools the last one in the list is registered; other names keep what the registry held |
| Bridge.RegisteredKeyed | crates/matw-mcp/src/server.rs:29 | after registration every tool is still stored under its own name |
| Bridge.RegisterTools | crates/matw-mcp/src/bridge.rs:42-47 | registers each adapted tool in list order |
| Bridge.NotFoundSurfaces | crates/matw-mcp/src/server.rs:92-96 | a tool failing with NotFound reaches the client as -32603 with a message starting "Not found" |
| TuiApp.Utf8LenBounds | crates/matw-tui/src/app.rs:91-93 | the byte length is at least the character count, and equal to it for ASCII text |
| TuiApp.SubmitHasUser | crates/matw-tui/src/app.rs:66-74 | once a line is submitted, the agent never reports `NoUserMessage` |
| TuiApp.App.constructor | crates/matw-tui/src/app.rs:32-42 | empty input, no messages, not quitting, status "Ready", no agent |
| TuiApp.App.WithAgent | crates/matw-tui/src/app.rs:45-48 | the agent is attached and nothing else changes |
| TuiApp.App.HandleInput | crates/matw-tui/src/app.rs:51-53 | the character goes at the end of the input, and the cursor moves by its byte width |
| TuiApp.App.HandleBackspace | crates/matw-tui/src/app.rs:56-58 | the last character is removed; empty input stays empty |
| TuiApp.App.Quit | crates/matw-tui/src/app.rs:86-88 | sets the quit flag and nothing else |
| TuiApp.App.CursorPosition | crates/matw-tui/src/app.rs:91-93 | the input's length in UTF-8 bytes, which is at least its character count and equal to it for ASCII input |
| TuiApp.App.SubmitInput | crates/matw-tui/src/app.rs:61-83 | empty input changes nothing; otherwise one User message goes into the display and the session, the input is cleared and the status is "Processing..."; with an agent, a success shows the session log with status "Ready", and a failure shows `ErrorText`, "Error: " and the error's text, as status and as one more Assistant message that is not logged; ids stay distinct and below the counter in the session log |
| TuiApp.App.RecordInput | crates/matw-tui/src/app.rs:66-70 | a non-empty line becomes one User message with the counter's id, appended to both the display and the session; the input is cleared, the status is "Processing...", and session ids stay distinct and below the counter |
| TuiApp.App.ReportAgentRun | crates/matw-tui/src/app.rs:73-82 | the session log becomes the agent's `Rounds` outcome; Ok shows that log with status "Ready"; an error shows "Error: e" as status and as one more Assistant message with the counter's next id; ids stay distinct and below the counter in the session log |

## Left out

- HTTP transport (reqwest, the client timeout, `response.json()`): GLM's exchange is a parameter, and the Kimi and Claude clients are never used.
- Async execution and the `RwLock` around the tool registry: everything is sequential.
- Timestamps, and UUIDs, which are values drawn from a counter (`IdSupply`). Distinct ids are guaranteed only for messages whose ids all come from one counter: `FreshFor` states this for a log, and the agent loop, streaming and the app preserve it. A log given from outside may repeat ids, which UUIDs make practically impossible.
- The concrete tools (bash, glob, read, write): tools appear only through the `Tool` contract, and `execute` is a function of its input with no side effects.
- serde_json: JSON values are an opaque datatype with integer numbers, and the message and protocol encoders are written out as the forms serde derives.
- Floating point: the temperature is kept as the real 0.7.
- `Session::with_context`, used by the core integration tests, is not defined in session.rs and is not part of this model.
- `ToolError::IO` carries the text of the I/O error rather than the error itself.
- Streaming.ProcessStreaming: `on_delta` is modelled by the returned sequence of texts it receives, not as a call made while the stream is read.
- ToolServer.McpServer.ListTools: the HashMap's iteration order is a nondeterministic choice, so two listings are proved to hold the same entries but not to come in the same order.
- Messages.DecodeContent: reads the struct variants only in their JSON object form, not in the array form serde's untagged decoding also accepts.
- Glm.Complete: an unreadable error body is modelled as an absent body text, which becomes "" as in `unwrap_or_default`.
