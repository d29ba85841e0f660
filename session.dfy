/**
 * The conversation log (matw-core, session.rs): an append-only list of
 * messages, a three-state lifecycle with no transition guards, and a context.
 */
module Sessions {

  import opened Messages
  import opened Contexts

  datatype SessionState = Active | Paused | Closed

  class Session {
    const id: nat
    var messages: seq<Message>
    const context: Context
    var state: SessionState

    /** `Session::new`: a fresh id, no messages, state Active, a new context for `workingDir`. */
    constructor (ids: IdSupply, workingDir: string)
      modifies ids
      ensures id == old(ids.next) && ids.next == old(ids.next) + 1
      ensures messages == [] && state == Active && fresh(context)
      ensures context.workingDir == workingDir && context.gitInfo.None? && context.environment == map[] && context.claudeMd.None?
    {
      var newId := ids.Fresh();
      id := newId;
      messages := [];
      context := new Context(workingDir);
      state := Active;
    }

    function MessageCount(): (n: nat)
      reads this
      ensures n == |messages|
    {
      |messages|
    }

    predicate IsActive()
      reads this
    {
      state == Active
    }

    /** `to_ai_request`: every message, in log order. */
    function ToAiRequest(): (r: seq<Message>)
      reads this
      ensures |r| == MessageCount() && forall i :: 0 <= i < |r| ==> r[i] == messages[i]
    {
      messages
    }

    /** Appends at the end: one more message, the earlier ones untouched. */
    method AddMessage(m: Message)
      modifies this
      ensures messages == old(messages) + [m]
      ensures MessageCount() == old(MessageCount()) + 1 && messages[..old(|messages|)] == old(messages)
      ensures state == old(state)
    {
      messages := messages + [m];
    }

    method Close()
      modifies this
      ensures state == Closed && !IsActive() && messages == old(messages)
    {
      state := Closed;
    }

    method Pause()
      modifies this
      ensures state == Paused && !IsActive() && messages == old(messages)
    {
      state := Paused;
    }

    method Resume()
      modifies this
      ensures state == Active && IsActive() && messages == old(messages)
    {
      state := Active;
    }
  }

  /** Two sessions created from the same supply have distinct ids. */
  method NewTwo(ids: IdSupply, workingDir: string) returns (s1: Session, s2: Session)
    modifies ids
    ensures s1.id != s2.id && s1.messages == [] == s2.messages && s1.IsActive() && s2.IsActive()
  {
    s1 := new Session(ids, workingDir);
    s2 := new Session(ids, workingDir);
  }
}
