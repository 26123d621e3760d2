/**
 * The chat-completion agent (src/agents/baseAgent.ts): a message log whose
 * first entry is the system prompt.
 *
 * The OpenAI chat-completions call is a parameter `complete` that maps the
 * message list sent to what the call produced; the uuid identifiers of new
 * messages are supplied by the caller.
 */
module BaseAgents {
  import opened Wrappers
  import opened Messages

  /** What the completion call did: resolved with the first choice's content (possibly `null`), or threw. */
  datatype CompletionOutcome =
    | Completed(content: Option<string>)
    | Failed(error: string)   // `error` is the thrown value's string form, `${error}`

  /** The content of the assistant message a send appends: the completion's text, `''`, or `Error: ...`. */
  function ReplyContent(outcome: CompletionOutcome): (reply: string)
    ensures outcome.Completed? && outcome.content.Some? ==> reply == outcome.content.value
    ensures outcome.Completed? && outcome.content.None? ==> reply == ""
    ensures outcome.Failed? ==> reply == "Error: " + outcome.error && |reply| > |outcome.error|
  {
    match outcome
    case Completed(c) => c.GetOr("")
    case Failed(e) => "Error: " + e
  }

  /** JavaScript truthiness of the optional greeting: present and non-empty. */
  predicate Truthy(p: Option<string>) {
    p.Some? && p.value != ""
  }

  /** The log's invariant: the system prompt first, and no other system message. */
  predicate WellFormed(log: seq<Message>) {
    && |log| >= 1
    && log[0].role == System
    && forall i :: 1 <= i < |log| ==> log[i].role != System
  }

  /** The log the constructor builds. */
  function InitialLog(systemPrompt: string, initialPrompt: Option<string>, systemId: string, greetingId: string)
    : (log: seq<Message>)
    ensures WellFormed(log)
    ensures log[0] == Message(systemId, System, systemPrompt)
    ensures |log| == if Truthy(initialPrompt) then 2 else 1
    ensures |log| == 2 ==> log[1] == Message(greetingId, Assistant, initialPrompt.value)
  {
    var prompt := [Message(systemId, System, systemPrompt)];
    if Truthy(initialPrompt) then prompt + [Message(greetingId, Assistant, initialPrompt.value)] else prompt
  }

  /** `getMessages()`: `messages.slice(1)`. */
  function Visible(log: seq<Message>): (shown: seq<Message>)
    ensures |log| >= 1 ==> |shown| == |log| - 1 && log == [log[0]] + shown
    ensures WellFormed(log) ==> forall m :: m in shown ==> m.role != System
  {
    if |log| == 0 then [] else log[1..]
  }

  /** The log after `sendMessage(content)`; `complete` receives the log with the user message appended. */
  function AfterSend(log: seq<Message>, content: string, userId: string, replyId: string,
                     complete: seq<Message> -> CompletionOutcome): (log': seq<Message>)
    ensures |log'| == |log| + 2
    ensures log'[..|log|] == log
    ensures log'[|log|] == Message(userId, User, content)
    ensures log'[|log| + 1] == Message(replyId, Assistant, ReplyContent(complete(log'[..|log| + 1])))
    ensures WellFormed(log) ==> WellFormed(log')
  {
    var sent := log + [Message(userId, User, content)];
    assert sent + [Message(replyId, Assistant, ReplyContent(complete(sent)))] == log + [sent[|log|], Message(replyId, Assistant, ReplyContent(complete(sent)))];
    sent + [Message(replyId, Assistant, ReplyContent(complete(sent)))]
  }

  /** One call of `sendMessage`, with the identifiers it draws and the completion service's behaviour. */
  datatype Send = Send(content: string, userId: string, replyId: string, complete: seq<Message> -> CompletionOutcome)

  /** Awaited `sendMessage` calls one after another. */
  function AfterSends(log: seq<Message>, sends: seq<Send>): seq<Message>
    decreases |sends|
  {
    if sends == [] then log
    else AfterSends(AfterSend(log, sends[0].content, sends[0].userId, sends[0].replyId, sends[0].complete), sends[1..])
  }

  /** Sends only ever append, two messages each, and keep the log well formed (the system prompt stays first). */
  lemma {:induction false} SendsOnlyAppend(log: seq<Message>, sends: seq<Send>)
    ensures |AfterSends(log, sends)| == |log| + 2 * |sends|
    ensures log <= AfterSends(log, sends)
    ensures WellFormed(log) ==> WellFormed(AfterSends(log, sends))
    decreases |sends|
  {
    if sends != [] {
      var next := AfterSend(log, sends[0].content, sends[0].userId, sends[0].replyId, sends[0].complete);
      SendsOnlyAppend(next, sends[1..]);
    }
  }

  /** The log's length is even exactly when the agent was given a greeting, whatever was sent since. */
  lemma LogParity(systemPrompt: string, initialPrompt: Option<string>, systemId: string, greetingId: string,
                  sends: seq<Send>)
    ensures var log := AfterSends(InitialLog(systemPrompt, initialPrompt, systemId, greetingId), sends);
            && WellFormed(log)
            && log[0] == Message(systemId, System, systemPrompt)
            && (|log| % 2 == 0 <==> Truthy(initialPrompt))
  {
    var init := InitialLog(systemPrompt, initialPrompt, systemId, greetingId);
    SendsOnlyAppend(init, sends);
  }

  /** What a caller of `getMessages` sees after a send: what it saw before, the user message and the reply. */
  lemma VisibleAfterSend(log: seq<Message>, content: string, userId: string, replyId: string,
                         complete: seq<Message> -> CompletionOutcome)
    requires |log| >= 1
    ensures var log' := AfterSend(log, content, userId, replyId, complete);
            Visible(log') == Visible(log) + [log'[|log|], log'[|log| + 1]]
  {
  }

  class BaseAgent {
    var messages: seq<Message>

    constructor (systemPrompt: string, initialPrompt: Option<string>, systemId: string, greetingId: string)
      ensures messages == InitialLog(systemPrompt, initialPrompt, systemId, greetingId)
    {
      messages := [Message(systemId, System, systemPrompt)];
      if initialPrompt.Some? && initialPrompt.value != "" {
        messages := messages + [Message(greetingId, Assistant, initialPrompt.value)];
      }
    }

    method GetMessages() returns (shown: seq<Message>)
      ensures shown == Visible(messages)
    {
      shown := if |messages| == 0 then [] else messages[1..];
    }

    /** Appends the user message, asks for a completion over the whole log, and appends the reply or the error. */
    method SendMessage(content: string, userId: string, replyId: string, complete: seq<Message> -> CompletionOutcome)
      modifies this
      ensures messages == AfterSend(old(messages), content, userId, replyId, complete)
    {
      messages := messages + [Message(userId, User, content)];
      var outcome := complete(messages);
      match outcome
      case Completed(c) =>
        messages := messages + [Message(replyId, Assistant, c.GetOr(""))];
      case Failed(e) =>
        messages := messages + [Message(replyId, Assistant, "Error: " + e)];
    }
  }
}
