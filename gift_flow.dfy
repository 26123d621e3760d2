/**
 * The pure helpers of the gift-recommendation flow
 * (src/hooks/useGiftRecommendationFlow.ts): when the interview is over, which
 * text is the recipient profile, and where the interview part of the
 * displayed messages ends.
 */
module GiftFlow {
  import opened Text
  import opened Messages

  /** The phrase that two of the headings below are built around. */
  const SUMMARY_PHRASE: string := "recipient profile summary"

  /** Phrases whose presence in the last assistant reply marks a finished profile. */
  const PROFILE_INDICATORS: seq<string> := [
    "### " + SUMMARY_PHRASE,
    "## " + SUMMARY_PHRASE,
    SUMMARY_PHRASE,
    "### personality & lifestyle",
    "### interests & hobbies",
    "this summary should be clear"
  ]

  /** The same test without the two headings that contain the third phrase. */
  const DISTINCT_INDICATORS: seq<string> := [
    SUMMARY_PHRASE,
    "### personality & lifestyle",
    "### interests & hobbies",
    "this summary should be clear"
  ]

  /** What the concierge branch searches for to find the end of the interview. */
  const TRANSITION_MARKER: string := "Let me find some wonderful gift recommendations"

  /** Text of the message shown when the flow moves to the concierge. */
  const TRANSITION_TEXT: string :=
    "Perfect! I have all the information I need. " + TRANSITION_MARKER + " for you..."

  /** Some needle occurs in `s` (`needles.some(n => s.includes(n))`). */
  predicate ContainsAny(s: string, needles: seq<string>) {
    exists k :: 0 <= k < |needles| && Contains(s, needles[k])
  }

  /** `shouldTransitionToConcierge`: the last message is the assistant's and, lower-cased, contains a profile indicator. */
  predicate ShouldTransitionToConcierge(messages: seq<Message>)
    ensures ShouldTransitionToConcierge(messages) ==>
              |messages| > 0 && messages[|messages| - 1].role == Assistant
  {
    && |messages| > 0
    && messages[|messages| - 1].role == Assistant
    && ContainsAny(ToLowerAscii(messages[|messages| - 1].content), PROFILE_INDICATORS)
  }

  /** `extractProfile`: the last message's content when it is the assistant's, and `''` otherwise. */
  function ExtractProfile(messages: seq<Message>): (profile: string)
    ensures (|messages| == 0 || messages[|messages| - 1].role != Assistant) ==> profile == ""
    ensures |messages| > 0 && messages[|messages| - 1].role == Assistant ==>
              profile == messages[|messages| - 1].content
  {
    if |messages| == 0 || messages[|messages| - 1].role != Assistant then ""
    else messages[|messages| - 1].content
  }

  /** The two `#` headings are redundant: each contains `recipient profile summary`. */
  lemma HeadingsContainSummaryPhrase(s: string)
    ensures Contains(s, PROFILE_INDICATORS[0]) ==> Contains(s, PROFILE_INDICATORS[2])
    ensures Contains(s, PROFILE_INDICATORS[1]) ==> Contains(s, PROFILE_INDICATORS[2])
  {
    ContainsInMiddle("### ", SUMMARY_PHRASE, "");
    assert PROFILE_INDICATORS[0] == "### " + SUMMARY_PHRASE + "";
    ContainsInMiddle("## ", SUMMARY_PHRASE, "");
    assert PROFILE_INDICATORS[1] == "## " + SUMMARY_PHRASE + "";
    if Contains(s, PROFILE_INDICATORS[0]) {
      ContainsTransitive(s, PROFILE_INDICATORS[0], PROFILE_INDICATORS[2]);
    }
    if Contains(s, PROFILE_INDICATORS[1]) {
      ContainsTransitive(s, PROFILE_INDICATORS[1], PROFILE_INDICATORS[2]);
    }
  }

  /** Testing the six indicators is the same as testing the four distinct ones. */
  lemma SixIndicatorsAreFour(s: string)
    ensures ContainsAny(s, PROFILE_INDICATORS) <==> ContainsAny(s, DISTINCT_INDICATORS)
  {
    HeadingsContainSummaryPhrase(s);
    if ContainsAny(s, PROFILE_INDICATORS) {
      var k :| 0 <= k < |PROFILE_INDICATORS| && Contains(s, PROFILE_INDICATORS[k]);
      var k' := if k < 3 then 0 else k - 2;
      assert Contains(s, DISTINCT_INDICATORS[k']);
    }
    if ContainsAny(s, DISTINCT_INDICATORS) {
      var k :| 0 <= k < |DISTINCT_INDICATORS| && Contains(s, DISTINCT_INDICATORS[k]);
      assert Contains(s, PROFILE_INDICATORS[k + 2]);
    }
  }

  /** The transition test, restated over the four distinct indicators; it is false on an empty list or a non-assistant last message. */
  lemma ShouldTransitionIff(messages: seq<Message>)
    ensures ShouldTransitionToConcierge(messages) <==>
              && |messages| > 0
              && messages[|messages| - 1].role == Assistant
              && ContainsAny(ToLowerAscii(messages[|messages| - 1].content), DISTINCT_INDICATORS)
  {
    if |messages| > 0 {
      SixIndicatorsAreFour(ToLowerAscii(messages[|messages| - 1].content));
    }
  }

  /** Whenever the flow transitions, the profile it extracts is the last reply, and it is not empty. */
  lemma TransitionHasProfile(messages: seq<Message>)
    requires ShouldTransitionToConcierge(messages)
    ensures ExtractProfile(messages) == messages[|messages| - 1].content
    ensures ExtractProfile(messages) != ""
  {
  }

  /** Lower-casing makes the test case-insensitive: the capitalised heading the interview prompt asks for is recognised. */
  lemma CapitalisedHeadingTransitions(id: string)
    ensures ShouldTransitionToConcierge([Message(id, Assistant, "### Recipient Profile Summary")])
  {
    var low := ToLowerAscii("### Recipient Profile Summary");
    assert low == "### " + SUMMARY_PHRASE;
    ContainsAt(low, PROFILE_INDICATORS[0], 0);
  }

  /** The message appended to the interview when the flow transitions; `id` is `transition-<timestamp>`. */
  function TransitionMessage(id: string): (m: Message)
    ensures m.role == Assistant && Contains(m.content, TRANSITION_MARKER)
  {
    ContainsInMiddle("Perfect! I have all the information I need. ", TRANSITION_MARKER, " for you...");
    Message(id, Assistant, TRANSITION_TEXT)
  }

  /** `findIndex` of the first message containing the marker, or -1. */
  function FindMarker(messages: seq<Message>): (index: int)
    ensures -1 <= index < |messages|
    ensures index == -1 <==> forall i :: 0 <= i < |messages| ==> !Contains(messages[i].content, TRANSITION_MARKER)
    ensures index >= 0 ==> Contains(messages[index].content, TRANSITION_MARKER)
    ensures forall i :: 0 <= i < index ==> !Contains(messages[i].content, TRANSITION_MARKER)
  {
    if messages == [] then -1
    else if Contains(messages[0].content, TRANSITION_MARKER) then 0
    else
      var rest := FindMarker(messages[1..]);
      if rest == -1 then -1 else rest + 1
  }

  /** The interview part of the displayed messages: up to and including the first message carrying the marker, or all of them. */
  function PreTransitionMessages(all: seq<Message>): (pre: seq<Message>)
    ensures pre <= all
    ensures (forall i :: 0 <= i < |all| ==> !Contains(all[i].content, TRANSITION_MARKER)) ==> pre == all
    ensures (exists i :: 0 <= i < |all| && Contains(all[i].content, TRANSITION_MARKER)) ==>
              && |pre| > 0
              && Contains(pre[|pre| - 1].content, TRANSITION_MARKER)
              && forall i :: 0 <= i < |pre| - 1 ==> !Contains(pre[i].content, TRANSITION_MARKER)
  {
    var index := FindMarker(all);
    if index >= 0 then all[..index + 1] else all
  }

  /**
   * The prefix recovered later is exactly the interview plus the transition
   * message, provided no interview message already carried the marker.
   */
  lemma PrefixRecoversInterview(interview: seq<Message>, id: string, concierge: seq<Message>)
    requires forall i :: 0 <= i < |interview| ==> !Contains(interview[i].content, TRANSITION_MARKER)
    ensures PreTransitionMessages(interview + [TransitionMessage(id)] + concierge) == interview + [TransitionMessage(id)]
  {
    var all := interview + [TransitionMessage(id)] + concierge;
    var index := FindMarker(all);
    assert all[|interview|] == TransitionMessage(id);
    assert index == |interview|;
    assert all[..index + 1] == interview + [TransitionMessage(id)];
  }

  /** Without that proviso the prefix can stop early: a user message quoting the marker cuts the interview short. */
  lemma PrefixStopsAtQuotedMarker(id: string)
    ensures var quoted := Message("u", User, TRANSITION_MARKER);
            var interview := [quoted, Message("a", Assistant, "")];
            PreTransitionMessages(interview + [TransitionMessage(id)]) == [quoted]
  {
    ContainsAt(TRANSITION_MARKER, TRANSITION_MARKER, 0);
  }
}
