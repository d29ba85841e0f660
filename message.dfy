/**
 * A conversation message (matw-core, message.rs). The UUID a message gets at
 * construction comes from an `IdSupply`; the creation time is not modelled.
 */
module Messages {

  import opened Wrappers
  import opened Json
  import opened Roles
  import opened Contents

  type MessageId = nat

  datatype Message = Message(id: MessageId, role: Role, content: Content, metadata: map<string, Json>)
  {
    /** `has_tool_use` */
    predicate HasToolUse() { content.ToolUse? }

    /** `is_tool_result` */
    predicate IsToolResult() { content.ToolResult? }

    /** `is_error` forwards to the content's own flag. */
    predicate IsError() { Contents.IsError(content) }
  }

  /** `Message::new` once its id has been drawn: the metadata starts empty. */
  function New(id: MessageId, role: Role, content: Content): Message
  {
    Message(id, role, content, map[])
  }

  function NewUser(id: MessageId, text: string): Message { New(id, User, Text(text)) }

  function NewAssistant(id: MessageId, text: string): Message { New(id, Assistant, Text(text)) }

  function NewSystem(id: MessageId, text: string): Message { New(id, System, Text(text)) }

  /** A recorded tool call is authored by the Assistant, not by the Tool role. */
  function NewToolUse(id: MessageId, callId: string, name: string, input: Json): Message
  {
    New(id, Assistant, ToolUse(callId, name, input))
  }

  function NewToolResult(id: MessageId, callId: string, content: string, isError: bool): Message
  {
    New(id, Tool, ToolResult(callId, content, isError))
  }

  /** What each constructor promises about id, role, content, metadata and the predicates. */
  lemma ConstructorShapes(id: MessageId, callId: string, text: string, name: string, input: Json, isError: bool)
    ensures NewUser(id, text) == Message(id, User, Text(text), map[])
    ensures NewAssistant(id, text) == Message(id, Assistant, Text(text), map[])
    ensures NewSystem(id, text) == Message(id, System, Text(text), map[])
    ensures var m := NewToolUse(id, callId, name, input);
      && m == Message(id, Assistant, ToolUse(callId, name, input), map[])
      && m.HasToolUse() && !m.IsToolResult() && !m.IsError() && ToolName(m.content) == Some(name)
    ensures var m := NewToolResult(id, callId, text, isError);
      && m == Message(id, Tool, ToolResult(callId, text, isError), map[])
      && m.IsToolResult() && !m.HasToolUse() && m.IsError() == isError && AsStr(m.content) == Some(text)
    ensures forall r, c :: New(id, r, c).id == id && New(id, r, c).metadata == map[]
  {
  }

  /** The source of fresh message and session ids (`Uuid::new_v4`). */
  class IdSupply {
    var next: nat

    constructor ()
      ensures next == 0
    {
      next := 0;
    }

    /** Every id handed out is below `next` afterwards, so no id is handed out twice. */
    method Fresh() returns (id: nat)
      modifies this
      ensures id == old(next) && next == old(next) + 1
    {
      id := next;
      next := next + 1;
    }
  }

  /** `Message::new`: draws a fresh id and builds the record. */
  method Create(ids: IdSupply, role: Role, content: Content) returns (m: Message)
    modifies ids
    ensures m == New(old(ids.next), role, content)
    ensures old(ids.next) <= m.id < ids.next == old(ids.next) + 1
  {
    var id := ids.Fresh();
    m := New(id, role, content);
  }

  /** Two messages created one after the other have distinct ids. */
  method CreateTwo(ids: IdSupply, role: Role, c1: Content, c2: Content) returns (m1: Message, m2: Message)
    modifies ids
    ensures m1.id != m2.id
    ensures m1 == New(old(ids.next), role, c1) && m2 == New(old(ids.next) + 1, role, c2)
  {
    m1 := Create(ids, role, c1);
    m2 := Create(ids, role, c2);
  }

  /**
   * The invariant a log keeps against the counter that draws its ids: the ids
   * are pairwise distinct and all below `next`, so none of the ids the counter
   * hands out later is already in the log.
   */
  ghost predicate FreshFor(log: seq<Message>, next: nat)
  {
    && (forall i :: 0 <= i < |log| ==> log[i].id < next)
    && (forall i, j :: 0 <= i < j < |log| ==> log[i].id != log[j].id)
  }

  /** Appending a message with the counter's current id, and advancing the counter, keeps the invariant. */
  lemma AppendFresh(log: seq<Message>, next: nat, m: Message)
    requires FreshFor(log, next) && m.id == next
    ensures FreshFor(log + [m], next + 1)
  {
  }

  /** A counter that has moved further on keeps the invariant. */
  lemma FreshForLater(log: seq<Message>, next: nat, later: nat)
    requires FreshFor(log, next) && next <= later
    ensures FreshFor(log, later)
  {
  }

  // ---- An encoder to JSON and its decoder (serde's derived forms) ----

  /** The untagged encoding of a content: a bare string, or an object of its fields. */
  function EncodeContent(c: Content): Json
  {
    match c
    case Text(s) => JString(s)
    case ToolUse(id, name, input) => JObject(map["id" := JString(id), "name" := JString(name), "input" := input])
    case ToolResult(id, s, e) => JObject(map["id" := JString(id), "content" := JString(s), "is_error" := JBool(e)])
  }

  /**
   * Untagged decoding tries the variants in declaration order; unknown keys are
   * ignored. Only the object form of the two struct variants is read; serde
   * would also take their fields as a JSON array.
   */
  function DecodeContent(j: Json): Option<Content>
  {
    if j.JString? then Some(Text(j.s))
    else if StringField(j, "id").Some? && StringField(j, "name").Some? && "input" in j.fields then
      Some(ToolUse(j.fields["id"].s, j.fields["name"].s, j.fields["input"]))
    else if StringField(j, "id").Some? && StringField(j, "content").Some? && BoolField(j, "is_error").Some? then
      Some(ToolResult(j.fields["id"].s, j.fields["content"].s, j.fields["is_error"].b))
    else None
  }

  function Encode(m: Message): (j: Json)
    ensures j.JObject? && "role" in j.fields && j.fields["role"] == JString(Display(m.role))
  {
    JObject(map[
      "id" := JNumber(m.id),
      "role" := JString(Display(m.role)),
      "content" := EncodeContent(m.content),
      "metadata" := JObject(m.metadata)])
  }

  function Decode(j: Json): Option<Message>
  {
    if j.JObject? && "id" in j.fields && j.fields["id"].JNumber? && j.fields["id"].n >= 0
       && StringField(j, "role").Some? && Parse(j.fields["role"].s).Some?
       && "content" in j.fields && DecodeContent(j.fields["content"]).Some?
       && "metadata" in j.fields && j.fields["metadata"].JObject?
    then
      Some(Message(j.fields["id"].n, Parse(j.fields["role"].s).value,
                   DecodeContent(j.fields["content"]).value, j.fields["metadata"].fields))
    else None
  }

  /** Decoding an encoded content gives it back, for each of the three variants. */
  lemma {:induction false} ContentRoundTrip(c: Content)
    ensures DecodeContent(EncodeContent(c)) == Some(c)
  {
    match c
    case Text(_) =>
    case ToolUse(id, name, input) =>
      var j := EncodeContent(c);
      assert StringField(j, "id") == Some(id) && StringField(j, "name") == Some(name);
    case ToolResult(id, s, e) =>
      var j := EncodeContent(c);
      assert "name" !in j.fields;
      assert StringField(j, "id") == Some(id) && StringField(j, "content") == Some(s);
  }

  /** Encoding then decoding a message keeps its id, role, content and metadata. */
  lemma {:induction false} MessageRoundTrip(m: Message)
    ensures Decode(Encode(m)) == Some(m)
  {
    var j := Encode(m);
    ContentRoundTrip(m.content);
    ParseDisplay(m.role);
    assert j.fields["content"] == EncodeContent(m.content);
    assert StringField(j, "role") == Some(Display(m.role));
  }
}
