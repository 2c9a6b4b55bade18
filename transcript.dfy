/**
 * The conversation client: `MESSAGES` and `call_gpt` in start_gpt.py.
 * The completion service is an oracle from the whole transcript sent to the reply text.
 */
module Transcript {

  datatype Role = System | User | Assistant

  datatype Message = Message(role: Role, content: string)

  /** The chat-completion request: it sees the entire transcript and yields the first choice's text. */
  type Model = seq<Message> -> string

  /** The role every position of a transcript holds: the system message, then user/assistant pairs. */
  function RoleAt(i: nat): Role
  {
    if i == 0 then System else if i % 2 == 1 then User else Assistant
  }

  /** A transcript as `call_gpt` keeps it: the system message first, then complete user/assistant turns. */
  ghost predicate WellFormed(system: string, t: seq<Message>)
  {
    && |t| % 2 == 1
    && t[0] == Message(System, system)
    && forall i :: 0 <= i < |t| ==> t[i].role == RoleAt(i)
  }

  /** What the service answers when `prompt` is appended to `t` as a user message. */
  function Reply(t: seq<Message>, prompt: string, model: Model): string
  {
    model(t + [Message(User, prompt)])
  }

  /** The transcript after one `call_gpt(prompt)`. */
  function AfterCall(t: seq<Message>, prompt: string, model: Model): seq<Message>
  {
    t + [Message(User, prompt), Message(Assistant, Reply(t, prompt, model))]
  }

  /** One call appends a user turn and the assistant's reply to it, and leaves every earlier message alone. */
  lemma {:induction false} CallAppendsTurn(t: seq<Message>, prompt: string, model: Model)
    ensures var t' := AfterCall(t, prompt, model);
      && |t'| == |t| + 2
      && t <= t'
      && t'[|t|] == Message(User, prompt)
      && t'[|t| + 1].role == Assistant
      && t'[|t| + 1].content == model(t'[..|t| + 1])
  {
    var t' := AfterCall(t, prompt, model);
    assert t'[..|t| + 1] == t + [Message(User, prompt)];
  }

  /** A call keeps the system message in place and the user/assistant alternation intact. */
  lemma {:induction false} CallKeepsWellFormed(system: string, t: seq<Message>, prompt: string, model: Model)
    requires WellFormed(system, t)
    ensures WellFormed(system, AfterCall(t, prompt, model))
  {
    var t' := AfterCall(t, prompt, model);
    forall i | 0 <= i < |t'| ensures t'[i].role == RoleAt(i) {
      if i < |t| {
        assert t'[i] == t[i];
      }
    }
  }

  /** The module-level `MESSAGES` list together with the client that `call_gpt` uses. */
  class Client {
    const system: string
    const model: Model
    var messages: seq<Message>

    ghost predicate Valid()
      reads this
    {
      WellFormed(system, messages)
    }

    /** `MESSAGES = [{"role": "system", "content": ...}]` */
    constructor (system: string, model: Model)
      ensures Valid()
      ensures this.system == system && this.model == model
      ensures messages == [Message(System, system)]
    {
      this.system := system;
      this.model := model;
      messages := [Message(System, system)];
    }

    /** `call_gpt(prompt)`: two appends around one completion request; the reply is returned. */
    method Send(prompt: string) returns (reply: string)
      requires Valid()
      modifies this
      ensures Valid()
      ensures messages == AfterCall(old(messages), prompt, model)
      ensures reply == Reply(old(messages), prompt, model)
    {
      CallKeepsWellFormed(system, messages, prompt, model);
      messages := messages + [Message(User, prompt)];
      reply := model(messages);
      messages := messages + [Message(Assistant, reply)];
    }
  }
}
