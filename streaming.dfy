/**
 * Streamed processing (matw-agent, streaming.rs): one streamed completion
 * folded into a single Assistant message, with each text delta handed to
 * the caller's callback as it arrives. The callback is modelled by the
 * sequence of texts it is given.
 */
module Streaming {

  import opened Wrappers
  import opened Roles
  import Contents
  import opened Messages
  import opened Sessions
  import opened Provider
  import opened AgentSpec

  /** The streamed request: the whole log, no tools and no system prompt. */
  function StreamRequest(log: seq<Message>): (r: CompletionRequest)
    ensures r.messages == log && r.tools == [] && r.systemPrompt.None?
    ensures r.model == "default" && r.maxTokens == Some(4096 as u32) && r.temperature == Some(0.7)
  {
    CompletionRequest(log, [], RequestModel, Some(RequestMaxTokens), Some(RequestTemperature), None)
  }

  /** Whether an item ends the fold: a `Done` chunk or a stream error. */
  predicate Stops(item: StreamItem)
  {
    item.Failure? || item.value.Done?
  }

  /** The position of the first item that ends the fold, or the length when none does. */
  function FirstStop(items: seq<StreamItem>): (k: nat)
    ensures k <= |items|
    ensures forall j :: 0 <= j < k ==> !Stops(items[j])
    ensures k < |items| ==> Stops(items[k])
    decreases |items|
  {
    if items == [] || Stops(items[0]) then 0 else 1 + FirstStop(items[1..])
  }

  /** The texts of the `Delta` chunks among the items, in order. */
  function DeltaTexts(items: seq<StreamItem>): seq<string>
    decreases |items|
  {
    if items == [] then []
    else if items[0].Success? && items[0].value.Delta? then [items[0].value.text] + DeltaTexts(items[1..])
    else DeltaTexts(items[1..])
  }

  /** The concatenation of the texts. */
  function Concat(ss: seq<string>): string
    decreases |ss|
  {
    if ss == [] then "" else ss[0] + Concat(ss[1..])
  }

  /** What the fold ends with: the first stream error if any, the accumulated text, the callback's inputs. */
  datatype Fold = Fold(error: Option<AIError>, text: string, delivered: seq<string>)

  /**
   * The `while let` loop: a delta is delivered and appended, `Done` stops the
   * loop, an error aborts it and any other chunk is skipped.
   */
  function Consume(items: seq<StreamItem>): Fold
    decreases |items|
  {
    if items == [] then Fold(None, "", [])
    else match items[0]
      case Failure(e) => Fold(Some(e), "", [])
      case Success(Done) => Fold(None, "", [])
      case Success(Delta(t)) =>
        var f := Consume(items[1..]);
        Fold(f.error, t + f.text, [t] + f.delivered)
      case Success(ToolUse(_)) => Consume(items[1..])
  }

  /** `process_streaming` as a function of the provider, the log and the next fresh id. */
  datatype StreamOutcome = StreamOutcome(result: Result<(), AgentError>, log: seq<Message>, nextId: nat, delivered: seq<string>)

  function Streamed(p: Provider.AIProvider, log: seq<Message>, nextId: nat): StreamOutcome
  {
    match p.streamCompletion(StreamRequest(log))
    case Failure(e) => StreamOutcome(Failure(AgentError.AIProvider(e.ToString())), log, nextId, [])
    case Success(items) =>
      var f := Consume(items);
      if f.error.Some? then StreamOutcome(Failure(AgentError.AIProvider(f.error.value.ToString())), log, nextId, f.delivered)
      else StreamOutcome(Success(()), log + [NewAssistant(nextId, f.text)], nextId + 1, f.delivered)
  }

  /**
   * The fold read declaratively: the callback sees exactly the deltas before
   * the first stop, the fold fails exactly when that stop is an error, and
   * otherwise the text is the concatenation of what was delivered.
   */
  lemma {:induction false} ConsumeShape(items: seq<StreamItem>)
    ensures var f := Consume(items); var k := FirstStop(items);
      && f.delivered == DeltaTexts(items[..k])
      && (f.error.Some? <==> k < |items| && items[k].Failure?)
      && (f.error.Some? ==> f.error.value == items[k].error)
      && (f.error.None? ==> f.text == Concat(f.delivered))
    decreases |items|
  {
    if items != [] && !Stops(items[0]) {
      ConsumeShape(items[1..]);
      var k := FirstStop(items);
      assert items[..k][1..] == items[1..][..k - 1];
    }
  }

  /** Whatever follows a `Done` chunk is never read. */
  lemma {:induction false} DoneIgnoresRest(pre: seq<StreamItem>, rest: seq<StreamItem>)
    ensures Consume(pre + [Success(Done)] + rest) == Consume(pre + [Success(Done)])
    decreases |pre|
  {
    if pre == [] {
      assert ([Success(Done)] + rest)[0] == Success(Done);
    } else {
      DoneIgnoresRest(pre[1..], rest);
      assert (pre + [Success(Done)] + rest)[1..] == pre[1..] + [Success(Done)] + rest;
      assert (pre + [Success(Done)])[1..] == pre[1..] + [Success(Done)];
    }
  }

  /** A tool-use chunk changes nothing: the fold is the same without it. */
  lemma {:induction false} ToolUseIgnored(pre: seq<StreamItem>, u: Provider.ToolUse, rest: seq<StreamItem>)
    ensures Consume(pre + [Success(Chunk.ToolUse(u))] + rest) == Consume(pre + rest)
    decreases |pre|
  {
    var c: StreamItem := Success(Chunk.ToolUse(u));
    if pre == [] {
      assert pre + [c] + rest == [c] + rest && pre + rest == rest;
      assert ([c] + rest)[0] == c && ([c] + rest)[1..] == rest;
    } else {
      ToolUseIgnored(pre[1..], u, rest);
      assert (pre + [c] + rest)[1..] == pre[1..] + [c] + rest;
      assert (pre + rest)[1..] == pre[1..] + rest;
    }
  }

  /**
   * The outcome of a streamed completion: on any provider or stream error the
   * log is left as it was; otherwise exactly one Assistant message holding the
   * concatenated deltas is appended, even when there were none.
   */
  lemma StreamedShape(p: Provider.AIProvider, log: seq<Message>, nextId: nat)
    ensures var o := Streamed(p, log, nextId);
      && (o.result.Failure? ==> o.result.error.AIProvider? && o.log == log && o.nextId == nextId)
      && (o.result.Success? ==> o.log == log + [NewAssistant(nextId, Concat(o.delivered))] && o.nextId == nextId + 1)
      && (o.result.Success? <==>
            p.streamCompletion(StreamRequest(log)).Success? && Consume(p.streamCompletion(StreamRequest(log)).value).error.None?)
  {
    var c := p.streamCompletion(StreamRequest(log));
    if c.Success? {
      ConsumeShape(c.value);
    }
  }

  /** Streaming keeps every id of the log distinct and below the counter. */
  lemma StreamedKeepsIdsFresh(p: Provider.AIProvider, log: seq<Message>, nextId: nat)
    requires FreshFor(log, nextId)
    ensures var o := Streamed(p, log, nextId); FreshFor(o.log, o.nextId)
  {
    StreamedShape(p, log, nextId);
    var o := Streamed(p, log, nextId);
    if o.result.Success? {
      AppendFresh(log, nextId, NewAssistant(nextId, Concat(o.delivered)));
    }
  }

  /** The fold of the remaining items, after `text` was accumulated and `delivered` handed to the callback. */
  function Resumed(text: string, delivered: seq<string>, items: seq<StreamItem>): Fold
  {
    var f := Consume(items);
    Fold(f.error, text + f.text, delivered + f.delivered)
  }

  /** At a stop (the end, `Done` or an error) the fold keeps what it has and takes the error, if any. */
  lemma ResumedAtStop(text: string, delivered: seq<string>, items: seq<StreamItem>)
    requires items == [] || Stops(items[0])
    ensures Resumed(text, delivered, items) ==
      Fold(if items != [] && items[0].Failure? then Some(items[0].error) else None, text, delivered)
  {
    assert text + "" == text && delivered + [] == delivered;
  }

  /** A delta is accumulated and delivered, and any other chunk that does not stop is skipped. */
  lemma ResumedStep(text: string, delivered: seq<string>, items: seq<StreamItem>)
    requires items != [] && !Stops(items[0])
    ensures items[0].value.Delta? ==>
      Resumed(text, delivered, items) == Resumed(text + items[0].value.text, delivered + [items[0].value.text], items[1..])
    ensures !items[0].value.Delta? ==> Resumed(text, delivered, items) == Resumed(text, delivered, items[1..])
  {
    if items[0].value.Delta? {
      var t := items[0].value.text;
      var f := Consume(items[1..]);
      assert text + (t + f.text) == text + t + f.text;
      assert delivered + ([t] + f.delivered) == delivered + [t] + f.delivered;
    }
  }

  /** The outcome once the opened stream has been folded. */
  lemma StreamedFromFold(p: Provider.AIProvider, log: seq<Message>, nextId: nat, f: Fold)
    requires p.streamCompletion(StreamRequest(log)).Success?
    requires Consume(p.streamCompletion(StreamRequest(log)).value) == f
    ensures f.error.Some? ==> Streamed(p, log, nextId) == StreamOutcome(Failure(AgentError.AIProvider(f.error.value.ToString())), log, nextId, f.delivered)
    ensures f.error.None? ==> Streamed(p, log, nextId) == StreamOutcome(Success(()), log + [NewAssistant(nextId, f.text)], nextId + 1, f.delivered)
  {
  }

  /**
   * The `while let` loop of `process_streaming` over an opened stream: it
   * stops at the end, at `Done` or at the first error, and returns the error,
   * the accumulated text and the texts handed to the callback.
   */
  method FoldStream(stream: ChunkStream) returns (f: Fold)
    requires stream.Valid()
    modifies stream
    ensures f == Consume(old(stream.Remaining()))
  {
    var text := "";
    var delivered := [];
    while true
      invariant stream.Valid()
      invariant Consume(old(stream.Remaining())) == Resumed(text, delivered, stream.Remaining())
      decreases |stream.inner| - stream.pos
    {
      ghost var before := stream.Remaining();
      var next := stream.PollNext();
      if next.None? {
        ResumedAtStop(text, delivered, before);
        return Fold(None, text, delivered);
      }
      match next.value
      case Failure(e) =>
        ResumedAtStop(text, delivered, before);
        return Fold(Some(e), text, delivered);
      case Success(Done) =>
        ResumedAtStop(text, delivered, before);
        return Fold(None, text, delivered);
      case Success(Delta(t)) =>
        ResumedStep(text, delivered, before);
        delivered := delivered + [t];
        text := text + t;
      case Success(ToolUse(_)) =>
        ResumedStep(text, delivered, before);
    }
  }

  /** `process_streaming`: appends to the session in place and returns the callback's inputs. */
  method ProcessStreaming(p: Provider.AIProvider, session: Session, ids: IdSupply) returns (r: Result<(), AgentError>, delivered: seq<string>)
    modifies session, ids
    ensures var o := Streamed(p, old(session.messages), old(ids.next));
      r == o.result && session.messages == o.log && ids.next == o.nextId && delivered == o.delivered
    ensures session.state == old(session.state)
  {
    var request := StreamRequest(session.messages);
    var started := p.streamCompletion(request);
    if started.Failure? {
      return Failure(AgentError.AIProvider(started.error.ToString())), [];
    }
    var stream := new ChunkStream(started.value);
    var f := FoldStream(stream);
    StreamedFromFold(p, session.messages, ids.next, f);
    delivered := f.delivered;
    if f.error.Some? {
      return Failure(AgentError.AIProvider(f.error.value.ToString())), delivered;
    }
    var reply := Create(ids, Assistant, Contents.Text(f.text));
    session.AddMessage(reply);
    r := Success(());
  }
}
