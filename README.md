# Conversation core of the gift-recommendation assistant, in Dafny

This project models the conversation-state code of a two-stage gift assistant.
An "Interview Agent" persona gathers a profile of the gift recipient. A
"Concierge Agent" persona then recommends gifts. The model covers three pieces:

- **`Orchestration`** (`orchestrator.dfy`) models `AgentOrchestrator`. It holds a
  history of `{role, content, agent}` turns and a current persona name.
  - `sendMessage` always appends the user turn and then one assistant turn.
  - The assistant turn is either the engine's text or a fixed apology.
  - The persona switches from Interview to Concierge at most once, when the
    engine's trace signals a handoff.
  - `reset` returns to the initial state.
  - The module also holds the encoder from history to engine input items and
    the handoff detector.
  - A pure function `Send` specifies one turn. The class `AgentOrchestrator`
    implements the turn step by step, as the source does, and is proved equal
    to `Send`.
  - Lemmas over `SendAll` (a run of awaited calls) prove the one-way latch and
    the growth of the history.
- **`BaseAgents`** (`base_agent.dfy`) models `BaseAgent`. It is a message log
  whose first entry is the system prompt, optionally followed by a greeting.
  - `getMessages` hides the system prompt.
  - `sendMessage` appends the user message and then the completion's text,
    `''`, or `Error: …`.
  - The pure function `AfterSend` specifies a send. The class `BaseAgent`
    implements it.
- **`GiftFlow`** (`gift_flow.dfy`) models the pure helpers of the
  gift-recommendation hook:
  - the test for a finished profile (`shouldTransitionToConcierge`);
  - `extractProfile`;
  - the `findIndex`/`slice` computation that recovers the interview part of the
    displayed messages.

Three small helper modules support them. `Wrappers` defines `Option`. `Text`
defines substring search (`includes`) and ASCII lower-casing. `Messages` defines
the shared `Role` and `Message` types of `src/types/index.ts`.

External collaborators become parameters:

- **The agents SDK's `run`** is an argument `engine: seq<InputItem> -> EngineOutcome`,
  given per call. Each call may therefore behave differently.
- **The authentication check** is an argument `auth: AuthCheck`. It is
  `Authenticated`, `NotAuthenticated`, or `CheckThrew` (the check threw).
- **The chat-completions call** is an argument
  `complete: seq<Message> -> CompletionOutcome`. This lets the model state which
  message list the call receives.
- **The uuid identifiers of new messages** are supplied by the caller.
- **`AgentOrchestrator.SendMessage` also returns `engineCalls`**: the list of
  inputs it passed to the engine. This list is empty when the engine was not
  called.

The voice hook `src/hooks/useVoiceAgent.ts` (lines 12-68) builds a fresh
realtime session in each effect. No session is shared between components, so
there is no session manager to model.

## Model

| member | source | states |
|---|---|---|
| `Text.Contains` | src/hooks/useGiftRecommendationFlow.ts:29 | `includes`: a contained string is no longer than its container, and every prefix is contained; `Text.ContainsAt`, `Text.ContainsInMiddle` and `Text.ContainsTransitive` give its witnesses and transitivity |
| `Text.ContainsTransitive` | src/hooks/useGiftRecommendationFlow.ts:29 | a substring of a substring of a string is a substring of that string |
| `Text.ToLowerAscii` | src/hooks/useGiftRecommendationFlow.ts:17 | lower-casing keeps the length; each ASCII capital becomes the matching small letter (code + 32) and every other character is unchanged, so no ASCII capital remains |
| `Orchestration.EncodeTurn` | src/agents/agentOrchestrator.ts:82-99 | a user turn becomes a user item carrying its text; any other turn becomes an assistant item with status `completed` and a single `output_text` block; decoding the item gives back the turn's role and text |
| `Orchestration.WithoutSystem` | src/agents/agentOrchestrator.ts:81 | the kept turns are exactly the non-system turns of the history, and there are no more of them than turns |
| `Orchestration.EncodeHistory` | src/agents/agentOrchestrator.ts:80-100 | one item per non-system turn, in order; item i decodes to the role and text of the i-th kept turn |
| `Orchestration.WithoutSystemAppend` | src/agents/agentOrchestrator.ts:81 | filtering distributes over concatenation, so the relative order of the kept turns is preserved |
| `Orchestration.EncodeHistoryAppend` | src/agents/agentOrchestrator.ts:80-100 | encoding a concatenation gives the concatenation of the encodings, so the items follow the turns' order |
| `Orchestration.EncodeSingleTurn` | src/agents/agentOrchestrator.ts:80-100 | a system turn encodes to no item; any other turn encodes to its own item |
| `Orchestration.EncodeIgnoresSystemTurn` | src/agents/agentOrchestrator.ts:81 | inserting a system turn anywhere leaves the engine input unchanged |
| `Orchestration.EncodeAfterUserTurn` | src/agents/agentOrchestrator.ts:61-100 | after a user turn is pushed, the engine input is the earlier encoding followed by that user's item |
| `Orchestration.SignalsHandoff` | src/agents/agentOrchestrator.ts:154 | a `handoff` event always signals; a signalling event is a `handoff` or a named `tool_call` (its name must contain `transfer_to`); `Orchestration.AnySignalsHandoff` states the scan over a list |
| `Orchestration.AnySignalsHandoff` | src/agents/agentOrchestrator.ts:153-155 | the left-to-right scan is true exactly when some event is a `handoff` or a `tool_call` whose name contains `transfer_to` |
| `Orchestration.DetectHandoff` | src/agents/agentOrchestrator.ts:148-158 | true exactly when the trace and its event list are present and some event signals a handoff; false when either is absent |
| `Orchestration.ResponseText` | src/agents/agentOrchestrator.ts:105 | the response is the final output, or `''` when there is none |
| `Orchestration.Send` | src/agents/agentOrchestrator.ts:54-145 | exactly two turns are appended after an unchanged prefix: the user turn under the old persona, then an assistant turn under the new persona. The engine is called only when authenticated, with the old history's encoding plus the new user item. On failure: the apology, no handoff, persona unchanged. On success: the engine's text, and a handoff exactly when the detector fires while the persona is Interview. A handoff is exactly a persona change, and only from Interview to Concierge. The returned agent and history equal the new state |
| `Orchestration.HistoryOnlyGrows` | src/agents/agentOrchestrator.ts:61-136 | after n calls the history has grown by exactly 2n entries, the old history is a prefix, and there is one result per call |
| `Orchestration.ConciergeIsPermanent` | src/agents/agentOrchestrator.ts:109-112 | once the persona is Concierge, no sequence of calls changes it or reports a handoff |
| `Orchestration.PersonaOnlyMovesToConcierge` | src/agents/agentOrchestrator.ts:109-112 | after any sequence of calls the persona is either what it was or Concierge |
| `Orchestration.AtMostOneHandoff` | src/agents/agentOrchestrator.ts:109-112 | across any sequence of calls at most one result reports a handoff, and none unless the persona started as Interview |
| `Orchestration.TransferToConciergeSignals` | src/agents/agentOrchestrator.ts:154 | a `tool_call` event named `transfer_to_concierge_agent` signals a handoff |
| `Orchestration.OtherEventsDoNotSignal` | src/agents/agentOrchestrator.ts:153-155 | a trace holding only an `llm_call` event and a `get_weather` tool call signals no handoff |
| `Orchestration.RepeatedSignalSwitchesOnce` | src/agents/agentOrchestrator.ts:109-112 | from a new orchestrator, two turns whose traces both signal a handoff give a handoff on the first turn only; both report Concierge, and the history ends with 4 entries |
| `Orchestration.AgentOrchestrator.constructor` | src/agents/agentOrchestrator.ts:49-52 | the history is empty and the persona is `Interview Agent` |
| `Orchestration.AgentOrchestrator.SendMessage` | src/agents/agentOrchestrator.ts:54-145 | the new state, the result and the engine call log are those of `Send` on the old state |
| `Orchestration.AgentOrchestrator.GetConversationHistory` | src/agents/agentOrchestrator.ts:161-163 | returns the current history (a value, so always a copy) |
| `Orchestration.AgentOrchestrator.GetCurrentAgent` | src/agents/agentOrchestrator.ts:166-168 | returns the current persona name |
| `Orchestration.AgentOrchestrator.Reset` | src/agents/agentOrchestrator.ts:171-174 | from any state: the history is empty and the persona is `Interview Agent` |
| `BaseAgents.ReplyContent` | src/agents/baseAgent.ts:45-62 | the reply is the completion's content, `''` when the content is null, or `Error: ` followed by the error's text |
| `BaseAgents.InitialLog` | src/agents/baseAgent.ts:9-29 | the log is well formed and starts with the system prompt. It has length 2 exactly when the greeting is present and non-empty (the greeting is then the second entry), and length 1 otherwise |
| `BaseAgents.Visible` | src/agents/baseAgent.ts:31-33 | the visible messages are the log without its first entry; for a well-formed log none of them is a system message |
| `BaseAgents.AfterSend` | src/agents/baseAgent.ts:35-64 | exactly a user message and an assistant message are appended after the unchanged log. The reply is computed from the completion of the whole log ending with the new user message. Well-formedness is preserved |
| `BaseAgents.SendsOnlyAppend` | src/agents/baseAgent.ts:35-64 | after n sends the log has grown by exactly 2n entries, the old log is a prefix, and well-formedness holds |
| `BaseAgents.LogParity` | src/agents/baseAgent.ts:9-64 | after any sends, the log still starts with the system prompt, and its length is even exactly when a greeting was given |
| `BaseAgents.VisibleAfterSend` | src/agents/baseAgent.ts:31-64 | after a send, `getMessages` shows what it showed before plus the user message and the reply |
| `BaseAgents.BaseAgent.constructor` | src/agents/baseAgent.ts:9-29 | the log is `InitialLog` of the arguments |
| `BaseAgents.BaseAgent.GetMessages` | src/agents/baseAgent.ts:31-33 | returns the visible part of the log |
| `BaseAgents.BaseAgent.SendMessage` | src/agents/baseAgent.ts:35-64 | the new log is `AfterSend` of the old log |
| `GiftFlow.ExtractProfile` | src/hooks/useGiftRecommendationFlow.ts:32-37 | `''` for an empty list or a non-assistant last message; otherwise the last message's content unchanged |
| `GiftFlow.HeadingsContainSummaryPhrase` | src/hooks/useGiftRecommendationFlow.ts:20-22 | text containing either `#` heading also contains `recipient profile summary` |
| `GiftFlow.SixIndicatorsAreFour` | src/hooks/useGiftRecommendationFlow.ts:19-29 | containing one of the six indicators is equivalent to containing one of the four distinct ones |
| `GiftFlow.ShouldTransitionToConcierge` | src/hooks/useGiftRecommendationFlow.ts:13-30 | the test holds only for a non-empty list whose last message is the assistant's; `GiftFlow.ShouldTransitionIff` states the full equivalence |
| `GiftFlow.CapitalisedHeadingTransitions` | src/hooks/useGiftRecommendationFlow.ts:17-29 | the test is case-insensitive: an assistant message `### Recipient Profile Summary` triggers the transition |
| `GiftFlow.ShouldTransitionIff` | src/hooks/useGiftRecommendationFlow.ts:13-30 | the transition test holds exactly when the list is non-empty, the last message is the assistant's, and its lower-cased text contains one of the four distinct indicators |
| `GiftFlow.TransitionHasProfile` | src/hooks/useGiftRecommendationFlow.ts:13-37 | whenever the transition test holds, the extracted profile is the last message's content, and it is non-empty |
| `GiftFlow.TransitionMessage` | src/hooks/useGiftRecommendationFlow.ts:68-72 | the transition message is an assistant message whose text contains the marker the concierge branch searches for |
| `GiftFlow.FindMarker` | src/hooks/useGiftRecommendationFlow.ts:97-99 | -1 exactly when no message contains the marker; otherwise the index of a message that contains it, with no earlier message containing it |
| `GiftFlow.PreTransitionMessages` | src/hooks/useGiftRecommendationFlow.ts:97-103 | the result is a prefix of the messages. When some message contains the marker, the prefix ends at the first such message; otherwise it is the whole list |
| `GiftFlow.PrefixRecoversInterview` | src/hooks/useGiftRecommendationFlow.ts:68-103 | if no interview message contains the marker, the prefix recovered from interview + transition message + concierge messages is exactly interview + transition message |
| `GiftFlow.PrefixStopsAtQuotedMarker` | src/hooks/useGiftRecommendationFlow.ts:97-103 | without that proviso the prefix can end early: an earlier user message that quotes the marker is where it stops |

## Left out

- **The agents SDK** is not modelled: `createAgents`, `onHandoff`, the prompt
  prefix, the model name and `run` itself. `run` is the `engine` parameter. That
  `run` always starts from the interview agent cannot be seen in the model.
- **The OpenAI client and the model name** of `BaseAgent` are not modelled. The
  completion call is the `complete` parameter. Both failure forms arrive as
  `Failed(text)`, with the thrown value's string form: a rejected request, and a
  response without choices (a `TypeError` in the source).
- **The authentication service** (`src/services/*`, Firebase) is not modelled.
  Its answer enters as `AuthCheck`.
- **Identifiers** are caller-supplied strings: `v4()` ids and the
  `transition-<timestamp>` id. Their uniqueness is not modelled.
- **Lower-casing** is ASCII only. Full Unicode `toLowerCase` is not modelled.
- **Malformed events**: each trace event is a record with optional `type` and
  `name`. A `null` entry inside the event list would throw inside the `try`
  block and end in the apology. The model does not cover that case.
- **Asynchrony**: each `sendMessage` runs to completion as one step. Overlapping
  concurrent calls on one instance are not modelled, and neither is `reset`
  during a call.
- **Defensive copies**: histories are Dafny sequences, which are values. So
  "returns a copy" holds by construction, and aliasing is not modelled.
- **Console logging** of errors is not modelled.
- **The gift-flow hook's own state is not modelled**: its React state, loading
  flag and effects, and the calls it makes to the two agents. Only the helpers
  and the prefix computation are.
- **Voice and other UI code is not part of this model**: the realtime voice
  session (`src/hooks/useVoiceAgent.ts`, `src/agents/voiceSessionFactory.ts`),
  the other hooks, the pages and components (including the markdown heuristics
  in `messageLine.tsx`), and the prompt texts.
