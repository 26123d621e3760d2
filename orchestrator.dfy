/**
 * The agent orchestrator (src/agents/agentOrchestrator.ts): a conversation
 * history and a current persona, one request/response turn at a time.
 *
 * The agents SDK's `run` call is a parameter `engine` that maps the rendered
 * conversation items to what `run` produced (a result or a thrown error); the
 * authentication check is a parameter `auth`.
 */
module Orchestration {
  import opened Wrappers
  import opened Text
  import opened Messages

  const INTERVIEW_AGENT: string := "Interview Agent"
  const CONCIERGE_AGENT: string := "Concierge Agent"
  const APOLOGY: string := "I apologize, but I encountered an error. Please try again."
  /** Tool names of the SDK's handoff tools carry this infix. */
  const TRANSFER_MARKER: string := "transfer_to"
  /** The `status` an assistant item carries when it is sent back to the engine. */
  const COMPLETED: string := "completed"

  /** One entry of the conversation history. */
  datatype Turn = Turn(role: Role, content: string, agent: string)

  // ---------------------------------------------------------------------------
  // Conversation item codec: history -> engine input items
  // ---------------------------------------------------------------------------

  /** A `{type: 'output_text', text}` content block. */
  datatype OutputText = OutputText(text: string)

  /** The engine's input items (all of `type: 'message'`). */
  datatype InputItem =
    | UserMessage(text: string)                                      // role 'user'
    | AssistantMessage(status: string, parts: seq<OutputText>)       // role 'assistant'

  /** The text carried by a list of output blocks, in order. */
  function JoinTexts(parts: seq<OutputText>): string {
    if parts == [] then "" else parts[0].text + JoinTexts(parts[1..])
  }

  /** Reads back the role and the text an item carries. */
  function DecodeItem(item: InputItem): (Role, string) {
    match item
    case UserMessage(c) => (User, c)
    case AssistantMessage(_, parts) => (Assistant, JoinTexts(parts))
  }

  /** The shape one retained turn takes: user turns as plain text, every other turn as a completed assistant message. */
  function EncodeTurn(t: Turn): (item: InputItem)
    ensures t.role != System ==> DecodeItem(item) == (t.role, t.content)
    ensures item.AssistantMessage? ==> item.status == COMPLETED && |item.parts| == 1
  {
    if t.role == User then UserMessage(t.content)
    else
      var parts := [OutputText(t.content)];
      assert JoinTexts(parts[1..]) == "";
      assert JoinTexts(parts) == t.content + "" == t.content;
      assert t.role != System ==> t.role == Assistant;
      AssistantMessage(COMPLETED, parts)
  }

  /** The `filter(msg => msg.role !== 'system')` step. */
  function WithoutSystem(h: seq<Turn>): (kept: seq<Turn>)
    ensures |kept| <= |h|
    ensures forall t :: t in kept <==> t in h && t.role != System
  {
    if h == [] then []
    else if h[0].role == System then WithoutSystem(h[1..])
    else [h[0]] + WithoutSystem(h[1..])
  }

  /** The items handed to the engine: system turns dropped, the rest mapped by `EncodeTurn`. */
  function EncodeHistory(h: seq<Turn>): (items: seq<InputItem>)
    ensures |items| == |WithoutSystem(h)|
    ensures forall i :: 0 <= i < |items| ==>
              DecodeItem(items[i]) == (WithoutSystem(h)[i].role, WithoutSystem(h)[i].content)
  {
    var kept := WithoutSystem(h);
    assert forall i :: 0 <= i < |kept| ==> kept[i] in kept;
    seq(|kept|, i requires 0 <= i < |kept| => EncodeTurn(kept[i]))
  }

  /** Filtering distributes over concatenation, so it keeps the relative order of the turns. */
  lemma {:induction false} WithoutSystemAppend(a: seq<Turn>, b: seq<Turn>)
    ensures WithoutSystem(a + b) == WithoutSystem(a) + WithoutSystem(b)
  {
    if a == [] {
      assert a + b == b;
    } else {
      assert (a + b)[1..] == a[1..] + b;
      WithoutSystemAppend(a[1..], b);
    }
  }

  /** Encoding distributes over concatenation: the items follow the order of the turns. */
  lemma EncodeHistoryAppend(a: seq<Turn>, b: seq<Turn>)
    ensures EncodeHistory(a + b) == EncodeHistory(a) + EncodeHistory(b)
  {
    WithoutSystemAppend(a, b);
  }

  /** A single turn encodes to nothing when it is a system turn and to its own item otherwise. */
  lemma EncodeSingleTurn(t: Turn)
    ensures EncodeHistory([t]) == if t.role == System then [] else [EncodeTurn(t)]
  {
  }

  /** A system turn anywhere in the history leaves the engine input unchanged. */
  lemma EncodeIgnoresSystemTurn(a: seq<Turn>, t: Turn, b: seq<Turn>)
    requires t.role == System
    ensures EncodeHistory(a + [t] + b) == EncodeHistory(a + b)
  {
    EncodeHistoryAppend(a + [t], b);
    EncodeHistoryAppend(a, [t]);
    EncodeSingleTurn(t);
    EncodeHistoryAppend(a, b);
  }

  /** Appending a user turn appends exactly its user item to the engine input. */
  lemma EncodeAfterUserTurn(h: seq<Turn>, text: string, agent: string)
    ensures EncodeHistory(h + [Turn(User, text, agent)]) == EncodeHistory(h) + [UserMessage(text)]
  {
    EncodeHistoryAppend(h, [Turn(User, text, agent)]);
    EncodeSingleTurn(Turn(User, text, agent));
  }

  // ---------------------------------------------------------------------------
  // Handoff detection over the engine's result
  // ---------------------------------------------------------------------------

  /** A trace event `{type?, name?}`; `kind` is the event's `type`. */
  datatype Event = Event(kind: Option<string>, name: Option<string>)
  /** `trace: {events?}`; a `null` list is `None` like an absent one. */
  datatype Trace = Trace(events: Option<seq<Event>>)
  /** What `run` resolves to: `{finalOutput?, trace?}`. */
  datatype RunResult = RunResult(finalOutput: Option<string>, trace: Option<Trace>)
  /** What the call to `run` did: rejected, or resolved to a result. */
  datatype EngineOutcome = Threw | Returned(result: RunResult)

  /** One event that signals a handoff: a `handoff` event, or a `tool_call` whose name contains `transfer_to`. */
  predicate SignalsHandoff(e: Event)
    ensures e.kind == Some("handoff") ==> SignalsHandoff(e)
    ensures SignalsHandoff(e) ==> e.kind == Some("handoff") || (e.kind == Some("tool_call") && e.name.Some?)
  {
    || e.kind == Some("handoff")
    || (e.kind == Some("tool_call") && e.name.Some? && Contains(e.name.value, TRANSFER_MARKER))
  }

  /** `events.some(SignalsHandoff)`, scanning left to right and stopping at the first match. */
  function AnySignalsHandoff(events: seq<Event>): (found: bool)
    ensures found <==> exists i :: 0 <= i < |events| && SignalsHandoff(events[i])
  {
    if events == [] then false
    else SignalsHandoff(events[0]) || AnySignalsHandoff(events[1..])
  }

  /** `detectHandoffFromResult`: false when the trace or its events are absent, otherwise whether any event signals a handoff. */
  function DetectHandoff(result: RunResult): (detected: bool)
    ensures detected <==>
              && result.trace.Some?
              && result.trace.value.events.Some?
              && exists i :: 0 <= i < |result.trace.value.events.value|
                             && SignalsHandoff(result.trace.value.events.value[i])
  {
    match result.trace
    case None => false
    case Some(t) =>
      match t.events
      case None => false
      case Some(events) => AnySignalsHandoff(events)
  }

  /** `result.finalOutput || ''`. */
  function ResponseText(result: RunResult): (text: string)
    ensures result.finalOutput.None? ==> text == ""
    ensures result.finalOutput.Some? ==> text == result.finalOutput.value
  {
    result.finalOutput.GetOr("")
  }

  // ---------------------------------------------------------------------------
  // The orchestrator's state and one turn
  // ---------------------------------------------------------------------------

  datatype OrchestratorState = OrchestratorState(history: seq<Turn>, currentAgent: string)

  /** What the constructor and `reset` establish. */
  function Initial(): OrchestratorState {
    OrchestratorState([], INTERVIEW_AGENT)
  }

  /** The outcome of `isAuthenticated()`: true, false, or an exception. */
  datatype AuthCheck = Authenticated | NotAuthenticated | CheckThrew

  /** What `sendMessage` returns. */
  datatype OrchestrationResult =
    OrchestrationResult(response: string, agent: string, handoffOccurred: bool, conversationHistory: seq<Turn>)

  /** One turn: the state after it, what it returns, and the items it passed to the engine (`None` when it did not call it). */
  datatype Step = Step(next: OrchestratorState, result: OrchestrationResult, engineInput: Option<seq<InputItem>>)

  /** Whether a turn ends in the apology: the check failed or threw, or the engine threw. */
  predicate Fails(s: OrchestratorState, userMessage: string, auth: AuthCheck, engine: seq<InputItem> -> EngineOutcome) {
    auth != Authenticated
    || engine(EncodeHistory(s.history) + [UserMessage(userMessage)]).Threw?
  }

  /** `sendMessage(userMessage)` as a function of the state before it, the auth check and the engine. */
  function Send(s: OrchestratorState, userMessage: string, auth: AuthCheck, engine: seq<InputItem> -> EngineOutcome): (step: Step)
    // two entries are appended and nothing earlier changes
    ensures |step.next.history| == |s.history| + 2
    ensures step.next.history[..|s.history|] == s.history
    ensures step.next.history[|s.history|] == Turn(User, userMessage, s.currentAgent)
    ensures step.next.history[|s.history| + 1] == Turn(Assistant, step.result.response, step.next.currentAgent)
    // the result reports the new state
    ensures step.result.agent == step.next.currentAgent
    ensures step.result.conversationHistory == step.next.history
    // the engine sees the old history plus the new user message, and only when authenticated
    ensures step.engineInput.None? <==> auth != Authenticated
    ensures step.engineInput.Some? ==> step.engineInput.value == EncodeHistory(s.history) + [UserMessage(userMessage)]
    // failure: the apology, attributed to the unchanged persona
    ensures Fails(s, userMessage, auth, engine) ==>
              && step.result.response == APOLOGY
              && !step.result.handoffOccurred
              && step.next.currentAgent == s.currentAgent
    // success: the engine's text, and the one-way latch
    ensures !Fails(s, userMessage, auth, engine) ==>
              var outcome := engine(EncodeHistory(s.history) + [UserMessage(userMessage)]);
              && outcome.Returned?
              && var r := outcome.result;
              && step.result.response == ResponseText(r)
              && (step.result.handoffOccurred <==> DetectHandoff(r) && s.currentAgent == INTERVIEW_AGENT)
    ensures step.result.handoffOccurred <==> step.next.currentAgent != s.currentAgent
    ensures step.result.handoffOccurred ==> s.currentAgent == INTERVIEW_AGENT && step.next.currentAgent == CONCIERGE_AGENT
  {
    var withUser := s.history + [Turn(User, userMessage, s.currentAgent)];
    EncodeAfterUserTurn(s.history, userMessage, s.currentAgent);
    var items := EncodeHistory(withUser);
    var failure := (agent: string, input: Option<seq<InputItem>>) =>
      var h := withUser + [Turn(Assistant, APOLOGY, agent)];
      Step(OrchestratorState(h, agent), OrchestrationResult(APOLOGY, agent, false, h), input);
    if auth != Authenticated then
      failure(s.currentAgent, None)
    else
      match engine(items)
      case Threw => failure(s.currentAgent, Some(items))
      case Returned(r) =>
        var text := ResponseText(r);
        var handoff := DetectHandoff(r) && s.currentAgent == INTERVIEW_AGENT;
        var agent := if handoff then CONCIERGE_AGENT else s.currentAgent;
        var h := withUser + [Turn(Assistant, text, agent)];
        Step(OrchestratorState(h, agent), OrchestrationResult(text, agent, handoff, h), Some(items))
  }

  // ---------------------------------------------------------------------------
  // Sequences of turns
  // ---------------------------------------------------------------------------

  /** One call of `sendMessage` with the collaborators' behaviour during that call. */
  datatype Request = Request(message: string, auth: AuthCheck, engine: seq<InputItem> -> EngineOutcome)

  /** Awaited `sendMessage` calls one after another: the final state and every result. */
  function SendAll(s: OrchestratorState, reqs: seq<Request>): (OrchestratorState, seq<OrchestrationResult>)
    decreases |reqs|
  {
    if reqs == [] then (s, [])
    else
      var step := Send(s, reqs[0].message, reqs[0].auth, reqs[0].engine);
      var rest := SendAll(step.next, reqs[1..]);
      (rest.0, [step.result] + rest.1)
  }

  /** How many of the results report a handoff. */
  function HandoffCount(results: seq<OrchestrationResult>): nat {
    if results == [] then 0
    else (if results[0].handoffOccurred then 1 else 0) + HandoffCount(results[1..])
  }

  /** Every turn appends two entries and leaves the earlier history untouched. */
  lemma {:induction false} HistoryOnlyGrows(s: OrchestratorState, reqs: seq<Request>)
    ensures |SendAll(s, reqs).0.history| == |s.history| + 2 * |reqs|
    ensures s.history <= SendAll(s, reqs).0.history
    ensures |SendAll(s, reqs).1| == |reqs|
    decreases |reqs|
  {
    if reqs != [] {
      var step := Send(s, reqs[0].message, reqs[0].auth, reqs[0].engine);
      HistoryOnlyGrows(step.next, reqs[1..]);
    }
  }

  /** Once the persona is the concierge, no later turn changes it or reports a handoff. */
  lemma {:induction false} ConciergeIsPermanent(s: OrchestratorState, reqs: seq<Request>)
    requires s.currentAgent == CONCIERGE_AGENT
    ensures SendAll(s, reqs).0.currentAgent == CONCIERGE_AGENT
    ensures HandoffCount(SendAll(s, reqs).1) == 0
    decreases |reqs|
  {
    if reqs != [] {
      var step := Send(s, reqs[0].message, reqs[0].auth, reqs[0].engine);
      ConciergeIsPermanent(step.next, reqs[1..]);
    }
  }

  /** The persona never moves except to the concierge: it ends where it started or at the concierge. */
  lemma {:induction false} PersonaOnlyMovesToConcierge(s: OrchestratorState, reqs: seq<Request>)
    ensures SendAll(s, reqs).0.currentAgent == s.currentAgent
         || SendAll(s, reqs).0.currentAgent == CONCIERGE_AGENT
    decreases |reqs|
  {
    if reqs != [] {
      var step := Send(s, reqs[0].message, reqs[0].auth, reqs[0].engine);
      PersonaOnlyMovesToConcierge(step.next, reqs[1..]);
    }
  }

  /** The latch: across any sequence of turns at most one reports a handoff, and none unless the persona started as the interviewer. */
  lemma {:induction false} AtMostOneHandoff(s: OrchestratorState, reqs: seq<Request>)
    ensures HandoffCount(SendAll(s, reqs).1) <= 1
    ensures s.currentAgent != INTERVIEW_AGENT ==> HandoffCount(SendAll(s, reqs).1) == 0
    decreases |reqs|
  {
    if reqs != [] {
      var step := Send(s, reqs[0].message, reqs[0].auth, reqs[0].engine);
      if step.result.handoffOccurred {
        ConciergeIsPermanent(step.next, reqs[1..]);
      } else {
        AtMostOneHandoff(step.next, reqs[1..]);
      }
    }
  }

  /** An engine that always answers `text` with a trace holding the given events. */
  function Answering(text: string, events: seq<Event>): seq<InputItem> -> EngineOutcome {
    _ => Returned(RunResult(Some(text), Some(Trace(Some(events)))))
  }

  /** The event the SDK emits when the interviewer calls its handoff tool. */
  function TransferToConcierge(): Event {
    Event(Some("tool_call"), Some("transfer_to_concierge_agent"))
  }

  lemma TransferToConciergeSignals()
    ensures SignalsHandoff(TransferToConcierge())
  {
    ContainsAt("transfer_to_concierge_agent", TRANSFER_MARKER, 0);
  }

  /** A non-transfer tool call and an LLM call signal nothing. */
  lemma OtherEventsDoNotSignal()
    ensures !DetectHandoff(RunResult(None, Some(Trace(Some([Event(Some("llm_call"), None),
                                                          Event(Some("tool_call"), Some("get_weather"))])))))
  {
    var name := "get_weather";
    forall i | 0 <= i <= |name|
      ensures !(TRANSFER_MARKER <= name[i..])
    {
      if i == 0 {
        assert name[0] != TRANSFER_MARKER[0];
      } else {
        assert |name[i..]| < |TRANSFER_MARKER|;
      }
    }
  }

  /** Two turns whose traces both signal a handoff switch the persona exactly once. */
  lemma {:induction false} RepeatedSignalSwitchesOnce(first: string, second: string, reply1: string, reply2: string)
    ensures var step1 := Send(Initial(), first, Authenticated, Answering(reply1, [TransferToConcierge()]));
            var step2 := Send(step1.next, second, Authenticated, Answering(reply2, [TransferToConcierge()]));
            && step1.result.handoffOccurred && step1.result.agent == CONCIERGE_AGENT
            && !step2.result.handoffOccurred && step2.result.agent == CONCIERGE_AGENT
            && |step2.result.conversationHistory| == 4
  {
    TransferToConciergeSignals();
    var r1 := RunResult(Some(reply1), Some(Trace(Some([TransferToConcierge()]))));
    assert DetectHandoff(r1);
  }

  // ---------------------------------------------------------------------------
  // The class
  // ---------------------------------------------------------------------------

  class AgentOrchestrator {
    var conversationHistory: seq<Turn>
    var currentAgentName: string

    /** The abstract value of the object. */
    function State(): OrchestratorState
      reads this
    {
      OrchestratorState(conversationHistory, currentAgentName)
    }

    constructor ()
      ensures State() == Initial()
    {
      conversationHistory := [];
      currentAgentName := INTERVIEW_AGENT;
    }

    /**
     * One turn. `engineCalls` lists the items each call of the engine received
     * (at most one call). History is a value, so the returned history is a copy.
     */
    method SendMessage(userMessage: string, auth: AuthCheck, engine: seq<InputItem> -> EngineOutcome)
      returns (result: OrchestrationResult, engineCalls: seq<seq<InputItem>>)
      modifies this
      ensures var step := Send(old(State()), userMessage, auth, engine);
              && State() == step.next
              && result == step.result
              && engineCalls == (if step.engineInput.Some? then [step.engineInput.value] else [])
    {
      conversationHistory := conversationHistory + [Turn(User, userMessage, currentAgentName)];
      var handoffOccurred := false;
      var failed := false;
      engineCalls := [];
      if auth != Authenticated {
        failed := true;
      } else {
        var items := EncodeHistory(conversationHistory);
        engineCalls := [items];
        var outcome := engine(items);
        match outcome
        case Threw =>
          failed := true;
        case Returned(r) =>
          var responseContent := ResponseText(r);
          if DetectHandoff(r) && currentAgentName == INTERVIEW_AGENT {
            handoffOccurred := true;
            currentAgentName := CONCIERGE_AGENT;
          }
          conversationHistory := conversationHistory + [Turn(Assistant, responseContent, currentAgentName)];
          result := OrchestrationResult(responseContent, currentAgentName, handoffOccurred, conversationHistory);
      }
      if failed {
        conversationHistory := conversationHistory + [Turn(Assistant, APOLOGY, currentAgentName)];
        result := OrchestrationResult(APOLOGY, currentAgentName, false, conversationHistory);
      }
    }

    method GetConversationHistory() returns (history: seq<Turn>)
      ensures history == State().history
    {
      history := conversationHistory;
    }

    method GetCurrentAgent() returns (name: string)
      ensures name == State().currentAgent
    {
      name := currentAgentName;
    }

    method Reset()
      modifies this
      ensures State() == Initial()
    {
      conversationHistory := [];
      currentAgentName := INTERVIEW_AGENT;
    }
  }
}
