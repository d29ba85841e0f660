/**
 * The terminal application's state (matw-tui, app.rs): the session, the input
 * buffer, the displayed messages, the status line and an optional agent, and
 * the edits a key press makes to them. Rendering is not part of it.
 */
module TuiApp {

  import opened Wrappers
  import opened Roles
  import Contents
  import opened Messages
  import opened Sessions
  import Tools
  import opened AgentSpec
  import opened AgentLoop

  /** The number of bytes a character takes in UTF-8. */
  function Utf8Width(c: char): nat
  {
    if c as int < 0x80 then 1
    else if c as int < 0x800 then 2
    else if c as int < 0x1_0000 then 3
    else 4
  }

  /** The UTF-8 length of a string, which is what `String::len` counts. */
  function Utf8Len(s: string): nat
    decreases |s|
  {
    if s == [] then 0 else Utf8Len(s[..|s| - 1]) + Utf8Width(s[|s| - 1])
  }

  /** The byte length is at least the character count, and equal to it for ASCII text. */
  lemma {:induction false} Utf8LenBounds(s: string)
    ensures |s| <= Utf8Len(s) <= 4 * |s|
    ensures (forall i :: 0 <= i < |s| ==> s[i] as int < 0x80) ==> Utf8Len(s) == |s|
    decreases |s|
  {
    if s != [] {
      Utf8LenBounds(s[..|s| - 1]);
    }
  }

  /** The status text of a failed agent run and the message shown for it. */
  function ErrorText(e: AgentError): string
  {
    "Error: " + e.ToString()
  }

  /** A submitted line always holds a User message, so the agent never reports `NoUserMessage` for it. */
  lemma {:induction false} SubmitHasUser(agentProvider: Provider.AIProvider, tools: seq<Tools.Tool>, maxIterations: nat,
                                        log: seq<Message>, id: MessageId, text: string, nextId: nat)
    ensures Rounds(agentProvider, tools, maxIterations, 0, log + [NewUser(id, text)], nextId).result != Failure(NoUserMessage)
  {
    var log' := log + [NewUser(id, text)];
    assert log'[|log'| - 1].role == User;
    assert LastUserIndex(log').Some?;
    if 0 < maxIterations {
      NoUserMessageExactly(agentProvider, tools, maxIterations, 0, log', nextId);
    }
  }

  class App {
    const session: Session
    var input: string
    var messages: seq<Message>
    var shouldQuit: bool
    const tools: seq<Tools.Tool>
    var status: string
    var agent: Option<Agent>

    /** `App::new`: empty input, no messages, status "Ready", no agent. */
    constructor (session: Session, tools: seq<Tools.Tool>)
      ensures this.session == session && this.tools == tools
      ensures input == [] && messages == [] && !shouldQuit && status == "Ready" && agent.None?
    {
      this.session := session;
      this.tools := tools;
      input := [];
      messages := [];
      shouldQuit := false;
      status := "Ready";
      agent := None;
    }

    /** `with_agent`: attaches the agent, nothing else changes. */
    method WithAgent(a: Agent)
      modifies this
      ensures agent == Some(a)
      ensures input == old(input) && messages == old(messages) && status == old(status) && shouldQuit == old(shouldQuit)
    {
      agent := Some(a);
    }

    /** `handle_input`: the character goes at the end of the input. */
    method HandleInput(c: char)
      modifies this
      ensures input == old(input) + [c]
      ensures CursorPosition() == old(CursorPosition()) + Utf8Width(c)
      ensures messages == old(messages) && status == old(status) && agent == old(agent) && shouldQuit == old(shouldQuit)
    {
      input := input + [c];
      assert input[..|input| - 1] == old(input);
    }

    /** `handle_backspace`: drops the last character; empty input stays empty. */
    method HandleBackspace()
      modifies this
      ensures old(input) == [] ==> input == []
      ensures old(input) != [] ==> input + [old(input)[|old(input)| - 1]] == old(input)
      ensures messages == old(messages) && status == old(status) && agent == old(agent) && shouldQuit == old(shouldQuit)
    {
      if input != [] {
        input := input[..|input| - 1];
      }
    }

    /** `quit`: only the quit flag changes. */
    method Quit()
      modifies this
      ensures shouldQuit
      ensures input == old(input) && messages == old(messages) && status == old(status) && agent == old(agent)
    {
      shouldQuit := true;
    }

    /** `cursor_position`: the input's length in bytes. */
    function CursorPosition(): (n: nat)
      reads this
      ensures n == Utf8Len(input)
      ensures |input| <= n
      ensures (forall i :: 0 <= i < |input| ==> input[i] as int < 0x80) ==> n == |input|
    {
      Utf8LenBounds(input);
      Utf8Len(input)
    }

    /**
     * `submit_input`. Empty input changes nothing. Otherwise the line becomes
     * a User message in both the display and the session, the input is
     * cleared and the status is "Processing..."; a present agent then runs on
     * the session. On success the display becomes the session's log and the
     * status "Ready"; on failure the status and one more Assistant message,
     * shown but not logged, carry the error.
     */
    method SubmitInput(ids: IdSupply)
      modifies this, session, ids
      ensures agent == old(agent) && shouldQuit == old(shouldQuit) && session.state == old(session.state)
      ensures old(input) == [] ==>
        input == [] && messages == old(messages) && status == old(status)
        && session.messages == old(session.messages) && ids.next == old(ids.next)
      ensures old(input) != [] ==> input == []
      ensures old(input) != [] && agent.None? ==>
        var user := NewUser(old(ids.next), old(input));
        && messages == old(messages) + [user] && session.messages == old(session.messages) + [user]
        && status == "Processing..." && ids.next == old(ids.next) + 1
      ensures old(input) != [] && agent.Some? ==>
        var user := NewUser(old(ids.next), old(input)); var a := agent.value;
        var o := Rounds(a.provider, a.tools, a.maxIterations, 0, old(session.messages) + [user], old(ids.next) + 1);
        && session.messages == o.log
        && (o.result.Success? ==> status == "Ready" && messages == o.log && ids.next == o.nextId)
        && (o.result.Failure? ==>
              && status == ErrorText(o.result.error)
              && messages == old(messages) + [user, NewAssistant(o.nextId, ErrorText(o.result.error))]
              && ids.next == o.nextId + 1)
      ensures old(FreshFor(session.messages, ids.next)) ==> FreshFor(session.messages, ids.next)
    {
      if input == [] {
        return;
      }
      RecordInput(ids);
      if agent.Some? {
        ReportAgentRun(ids);
      }
    }

    /** The first part of `submit_input` on a non-empty line: it becomes a User message in both places. */
    method RecordInput(ids: IdSupply)
      requires input != []
      modifies this, session, ids
      ensures agent == old(agent) && shouldQuit == old(shouldQuit) && session.state == old(session.state)
      ensures input == [] && status == "Processing..."
      ensures var user := NewUser(old(ids.next), old(input));
        && messages == old(messages) + [user] && session.messages == old(session.messages) + [user]
        && ids.next == old(ids.next) + 1
      ensures old(FreshFor(session.messages, ids.next)) ==> FreshFor(session.messages, ids.next)
    {
      ghost var log0 := session.messages;
      ghost var next0 := ids.next;
      var user := Create(ids, User, Contents.Text(input));
      assert user == NewUser(next0, old(input));
      messages := messages + [user];
      session.AddMessage(user);
      if FreshFor(log0, next0) {
        AppendFresh(log0, next0, user);
      }
      input := [];
      status := "Processing...";
    }

    /** The agent part of `submit_input`: runs the agent on the session and reports the outcome. */
    method ReportAgentRun(ids: IdSupply)
      requires agent.Some?
      modifies this, session, ids
      ensures agent == old(agent) && shouldQuit == old(shouldQuit) && input == old(input)
      ensures session.state == old(session.state)
      ensures var a := agent.value;
        var o := Rounds(a.provider, a.tools, a.maxIterations, 0, old(session.messages), old(ids.next));
        && session.messages == o.log
        && (o.result.Success? ==> status == "Ready" && messages == o.log && ids.next == o.nextId)
        && (o.result.Failure? ==>
              && status == ErrorText(o.result.error)
              && messages == old(messages) + [NewAssistant(o.nextId, ErrorText(o.result.error))]
              && ids.next == o.nextId + 1)
      ensures old(FreshFor(session.messages, ids.next)) ==> FreshFor(session.messages, ids.next)
    {
      var a := agent.value;
      ghost var log0 := session.messages;
      ghost var next0 := ids.next;
      if FreshFor(log0, next0) {
        RoundsKeepIdsFresh(a.provider, a.tools, a.maxIterations, 0, log0, next0);
        var o := Rounds(a.provider, a.tools, a.maxIterations, 0, log0, next0);
        FreshForLater(o.log, o.nextId, o.nextId + 1);
      }
      var r;
      ghost var requests;
      r, requests := a.Process(session, ids);
      if r.Failure? {
        var text := ErrorText(r.error);
        status := text;
        var shown := Create(ids, Assistant, Contents.Text(text));
        messages := messages + [shown];
      } else {
        status := "Ready";
        messages := session.messages;
      }
    }
  }
}
