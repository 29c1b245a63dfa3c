/** The decision tables of the language-model layer: the next state and
    the clarification flag it derives from the extracted fields, the
    window of history it sends, the canned alternative suggestions, and
    the results it returns when the model calls fail. The calls themselves
    are outside the model: the chat reply and the extraction are inputs. */
module Llm {
  import opened Wrappers
  import opened Text
  import opened Clock
  import opened Seqs
  import opened Models

  // ---------------------------------------------------------------------
  // Truthiness of extracted fields (`extracted_info.get(key)`)

  predicate HasDuration(info: ExtractedInfo) {
    info.durationMinutes.Some? && info.durationMinutes.value != 0
  }

  predicate HasTimeRange(info: ExtractedInfo) {
    info.preferredTimeRange.Some? && info.preferredTimeRange.value != ""
  }

  /** A date or a day period was extracted. */
  predicate HasDateOrRange(info: ExtractedInfo) {
    info.preferredDate.Some? || HasTimeRange(info)
  }

  // ---------------------------------------------------------------------
  // State table

  /** `_determine_next_state`. */
  function DetermineNextState(state: ConversationState, info: ExtractedInfo): ConversationState {
    match state
    case Initial => if HasDuration(info) then CollectingTimePreference else CollectingDuration
    case CollectingDuration => if HasDuration(info) then CollectingTimePreference else CollectingDuration
    case CollectingTimePreference => if HasDateOrRange(info) then CheckingAvailability else CollectingTimePreference
    case CheckingAvailability => ConfirmingSlot
    case ConfirmingSlot => Scheduling
    case Scheduling => Completed
    case _ => state
  }

  /** `_needs_clarification`. */
  predicate NeedsClarification(state: ConversationState, info: ExtractedInfo) {
    match state
    case CollectingDuration => !HasDuration(info)
    case CollectingTimePreference => !(HasDateOrRange(info) || info.specificTime.Some?)
    case _ => false
  }

  /** Position of a state along the scheduling flow. */
  function FlowRank(state: ConversationState): nat {
    match state
    case Initial => 0
    case CollectingDuration => 1
    case CollectingTimePreference => 2
    case CheckingAvailability => 3
    case ConfirmingSlot => 4
    case Scheduling => 5
    case Completed => 6
    case Error => 7
  }

  /** The table never moves backwards along the flow and never enters the
      error state; it advances by one step, except that a duration in the
      first message skips the duration question. Completed and Error are
      fixed points. */
  lemma NextStateAdvances(state: ConversationState, info: ExtractedInfo)
    ensures var next := DetermineNextState(state, info);
      FlowRank(state) <= FlowRank(next) <= FlowRank(state) + 2
      && (next.Error? <==> state.Error?)
      && (FlowRank(next) == FlowRank(state) + 2 ==> state.Initial? && HasDuration(info))
      && (state.Completed? || state.Error? ==> next == state)
  {
  }

  /** Asking for clarification means staying in the same state. */
  lemma ClarificationStalls(state: ConversationState, info: ExtractedInfo)
    ensures NeedsClarification(state, info) ==> DetermineNextState(state, info) == state
  {
  }

  /** The converse fails: a specific time alone, while collecting the time
      preference, keeps the state without asking for clarification. */
  lemma SpecificTimeAloneStalls(t: Timestamp)
    ensures var info := NoExtractedInfo.(specificTime := Some(t));
      DetermineNextState(CollectingTimePreference, info) == CollectingTimePreference
      && !NeedsClarification(CollectingTimePreference, info)
  {
  }

  // ---------------------------------------------------------------------
  // History window

  /** A message of the chat request. */
  datatype ChatMessage = ChatMessage(role: string, content: string)

  predicate IsChatRole(role: string) {
    role == "user" || role == "assistant"
  }

  /** `conversation_history[-10:]`. */
  function LastTen(history: seq<HistoryEntry>): seq<HistoryEntry> {
    history[|history| - Min(10, |history|)..]
  }

  /** The user and assistant entries as chat messages, in order. */
  function ChatMessagesOf(entries: seq<HistoryEntry>): seq<ChatMessage>
    decreases |entries|
  {
    if |entries| == 0 then []
    else
      var last := entries[|entries| - 1];
      ChatMessagesOf(entries[..|entries| - 1])
      + (if IsChatRole(last.role) then [ChatMessage(last.role, last.content)] else [])
  }

  /** What `_build_conversation_history` returns. */
  function HistoryWindow(history: seq<HistoryEntry>): seq<ChatMessage> {
    ChatMessagesOf(LastTen(history))
  }

  /** `_build_conversation_history`. */
  method BuildConversationHistory(history: seq<HistoryEntry>) returns (messages: seq<ChatMessage>)
    ensures messages == HistoryWindow(history)
  {
    var recent := history[|history| - Min(10, |history|)..];
    messages := [];
    for i := 0 to |recent|
      invariant messages == ChatMessagesOf(recent[..i])
    {
      var entry := recent[i];
      assert recent[..i + 1][..i] == recent[..i];
      if entry.role == "user" {
        messages := messages + [ChatMessage("user", entry.content)];
      } else if entry.role == "assistant" {
        messages := messages + [ChatMessage("assistant", entry.content)];
      }
    }
    assert recent[..|recent|] == recent;
  }

  /** Each message comes from one of the entries, with a chat role and the
      entry's content, and there are no more messages than entries. */
  lemma {:induction false} ChatMessagesFromEntries(entries: seq<HistoryEntry>)
    ensures |ChatMessagesOf(entries)| <= |entries|
    ensures forall k :: 0 <= k < |ChatMessagesOf(entries)| ==>
      IsChatRole(ChatMessagesOf(entries)[k].role)
      && exists j :: 0 <= j < |entries| && ChatMessagesOf(entries)[k] == ChatMessage(entries[j].role, entries[j].content)
    decreases |entries|
  {
    if |entries| > 0 {
      var init := entries[..|entries| - 1];
      var last := entries[|entries| - 1];
      ChatMessagesFromEntries(init);
      var messages := ChatMessagesOf(entries);
      assert messages == ChatMessagesOf(init) + (if IsChatRole(last.role) then [ChatMessage(last.role, last.content)] else []);
      forall k | 0 <= k < |messages|
        ensures IsChatRole(messages[k].role)
        ensures exists j :: 0 <= j < |entries| && messages[k] == ChatMessage(entries[j].role, entries[j].content)
      {
        if k < |ChatMessagesOf(init)| {
          var j :| 0 <= j < |init| && ChatMessagesOf(init)[k] == ChatMessage(init[j].role, init[j].content);
          assert init[j] == entries[j];
        } else {
          assert messages[k] == ChatMessage(last.role, last.content);
        }
      }
    }
  }

  /** When every entry has a chat role (as in the histories the engine
      writes), the messages are the entries themselves, in order. */
  lemma {:induction false} ChatMessagesAllChat(entries: seq<HistoryEntry>)
    requires forall j :: 0 <= j < |entries| ==> IsChatRole(entries[j].role)
    ensures |ChatMessagesOf(entries)| == |entries|
    ensures forall k :: 0 <= k < |entries| ==> ChatMessagesOf(entries)[k] == ChatMessage(entries[k].role, entries[k].content)
    decreases |entries|
  {
    if |entries| > 0 {
      var init := entries[..|entries| - 1];
      ChatMessagesAllChat(init);
      assert ChatMessagesOf(entries) == ChatMessagesOf(init) + [ChatMessage(entries[|entries| - 1].role, entries[|entries| - 1].content)];
    }
  }

  /** The window holds at most ten messages, each a user or assistant
      message taken from the last ten entries. */
  lemma HistoryWindowBounds(history: seq<HistoryEntry>)
    ensures |HistoryWindow(history)| <= 10
    ensures forall k :: 0 <= k < |HistoryWindow(history)| ==>
      IsChatRole(HistoryWindow(history)[k].role)
      && exists j ::
           0 <= j && |history| - 10 <= j < |history|
           && HistoryWindow(history)[k] == ChatMessage(history[j].role, history[j].content)
  {
    var recent := LastTen(history);
    var offset := |history| - |recent|;
    ChatMessagesFromEntries(recent);
    forall k | 0 <= k < |HistoryWindow(history)|
      ensures exists j ::
                0 <= j && |history| - 10 <= j < |history|
                && HistoryWindow(history)[k] == ChatMessage(history[j].role, history[j].content)
    {
      var j :| 0 <= j < |recent| && HistoryWindow(history)[k] == ChatMessage(recent[j].role, recent[j].content);
      assert recent[j] == history[offset + j];
    }
  }

  /** The messages of the chat request after the system prompt: the
      window, then the new user input. */
  function ChatRequest(history: seq<HistoryEntry>, userInput: string): seq<ChatMessage> {
    HistoryWindow(history) + [ChatMessage("user", userInput)]
  }

  // ---------------------------------------------------------------------
  // Alternative suggestions

  /** Some unavailable slot has a non-empty conflict reason mentioning
      `word` once lower-cased. */
  predicate ReasonMentions(slots: seq<TimeSlot>, word: string) {
    exists k :: 0 <= k < |slots| && slots[k].conflictReason.Some? && slots[k].conflictReason.value != ""
      && Contains(Lower(slots[k].conflictReason.value), word)
  }

  const MorningHint: string := "How about afternoon or evening times?"
  const AfternoonHint: string := "Would morning or evening work better?"
  const EveningHint: string := "How about morning or afternoon times?"
  const DaySuggestions: seq<string> := [
    "Would tomorrow work instead?",
    "How about next week?",
    "Would a different day this week be better?"
  ]

  /** What `generate_alternative_suggestions` returns. */
  function AlternativeSuggestions(slots: seq<TimeSlot>): seq<string> {
    var hints := PeriodHints(ReasonMentions(slots, "morning"), ReasonMentions(slots, "afternoon"),
                             ReasonMentions(slots, "evening"));
    (hints + DaySuggestions)[..3]
  }

  /** The hint for each period a reason mentions, in morning, afternoon,
      evening order. */
  function PeriodHints(morning: bool, afternoon: bool, evening: bool): seq<string> {
    (if morning then [MorningHint] else [])
    + (if afternoon then [AfternoonHint] else [])
    + (if evening then [EveningHint] else [])
  }

  function Count(b: bool): nat {
    if b then 1 else 0
  }

  /** Hints then days, cut to three: each hint is there exactly when its
      period is mentioned, at the position given by the mentioned periods
      before it, and the day suggestions fill the rest in their order. */
  lemma HintsThenDays(morning: bool, afternoon: bool, evening: bool)
    ensures var r := (PeriodHints(morning, afternoon, evening) + DaySuggestions)[..3];
      var n := Count(morning) + Count(afternoon) + Count(evening);
      |r| == 3
      && (MorningHint in r <==> morning) && (AfternoonHint in r <==> afternoon) && (EveningHint in r <==> evening)
      && (morning ==> r[0] == MorningHint)
      && (afternoon ==> r[Count(morning)] == AfternoonHint)
      && (evening ==> r[Count(morning) + Count(afternoon)] == EveningHint)
      && r[n..] == DaySuggestions[..3 - n]
  {
    var hints := PeriodHints(morning, afternoon, evening);
    var r := (hints + DaySuggestions)[..3];
    assert |hints| == Count(morning) + Count(afternoon) + Count(evening);
    assert r == hints + DaySuggestions[..3 - |hints|];
    assert forall x :: x in r <==> x in hints || x in DaySuggestions[..3 - |hints|];
    SuggestionTextsDistinct();
  }

  const PeriodWords: seq<string> := ["morning", "afternoon", "evening"]

  /** How many of `words` some conflict reason mentions. */
  function MentionCount(slots: seq<TimeSlot>, words: seq<string>): (n: nat)
    ensures n <= |words|
    decreases |words|
  {
    if |words| == 0 then 0
    else Count(ReasonMentions(slots, words[0])) + MentionCount(slots, words[1..])
  }

  /** The counts of mentioned period words the suggestion positions use. */
  lemma PeriodMentionCounts(slots: seq<TimeSlot>)
    ensures MentionCount(slots, ["morning"]) == Count(ReasonMentions(slots, "morning"))
    ensures MentionCount(slots, ["morning", "afternoon"])
            == MentionCount(slots, ["morning"]) + Count(ReasonMentions(slots, "afternoon"))
    ensures MentionCount(slots, PeriodWords)
            == MentionCount(slots, ["morning", "afternoon"]) + Count(ReasonMentions(slots, "evening"))
  {
    assert PeriodWords[1..] == ["afternoon", "evening"] && PeriodWords[1..][1..] == ["evening"];
    assert ["morning", "afternoon"][1..] == ["afternoon"];
    assert ["morning"][1..] == [];
  }

  /** `generate_alternative_suggestions`: the reasons are scanned once for
      each period word, then the day suggestions are appended. */
  method GenerateAlternativeSuggestions(unavailableSlots: seq<TimeSlot>) returns (suggestions: seq<string>)
    ensures suggestions == AlternativeSuggestions(unavailableSlots)
  {
    var morning, afternoon, evening := false, false, false;
    for i := 0 to |unavailableSlots|
      invariant morning == ReasonMentions(unavailableSlots[..i], "morning")
      invariant afternoon == ReasonMentions(unavailableSlots[..i], "afternoon")
      invariant evening == ReasonMentions(unavailableSlots[..i], "evening")
    {
      var reason := unavailableSlots[i].conflictReason;
      assert forall k :: 0 <= k < i ==> unavailableSlots[..i + 1][k] == unavailableSlots[..i][k];
      assert unavailableSlots[..i + 1][i] == unavailableSlots[i];
      if reason.Some? && reason.value != "" {
        var lowered := Lower(reason.value);
        morning := morning || Contains(lowered, "morning");
        afternoon := afternoon || Contains(lowered, "afternoon");
        evening := evening || Contains(lowered, "evening");
      }
    }
    assert unavailableSlots[..|unavailableSlots|] == unavailableSlots;
    suggestions := [];
    if morning {
      suggestions := suggestions + [MorningHint];
    }
    if afternoon {
      suggestions := suggestions + [AfternoonHint];
    }
    if evening {
      suggestions := suggestions + [EveningHint];
    }
    suggestions := suggestions + DaySuggestions;
    suggestions := suggestions[..3];
  }

  /** Always three suggestions: the period hints first, in morning,
      afternoon, evening order, then the day suggestions in their order; with
      no period mentioned, exactly the three day suggestions. */
  lemma AlternativeSuggestionsShape(slots: seq<TimeSlot>)
    ensures |AlternativeSuggestions(slots)| == 3
    ensures ReasonMentions(slots, "morning") ==> AlternativeSuggestions(slots)[0] == MorningHint
    ensures !ReasonMentions(slots, "morning") && ReasonMentions(slots, "afternoon") ==>
      AlternativeSuggestions(slots)[0] == AfternoonHint
    ensures !ReasonMentions(slots, "morning") && !ReasonMentions(slots, "afternoon") && !ReasonMentions(slots, "evening") ==>
      AlternativeSuggestions(slots) == DaySuggestions
    ensures AlternativeSuggestions(slots)[2] in DaySuggestions + [EveningHint]
    ensures MorningHint in AlternativeSuggestions(slots) <==> ReasonMentions(slots, "morning")
    ensures AfternoonHint in AlternativeSuggestions(slots) <==> ReasonMentions(slots, "afternoon")
    ensures EveningHint in AlternativeSuggestions(slots) <==> ReasonMentions(slots, "evening")
    ensures ReasonMentions(slots, "afternoon") ==>
      AlternativeSuggestions(slots)[MentionCount(slots, ["morning"])] == AfternoonHint
    ensures ReasonMentions(slots, "evening") ==>
      AlternativeSuggestions(slots)[MentionCount(slots, ["morning", "afternoon"])] == EveningHint
    ensures AlternativeSuggestions(slots)[MentionCount(slots, PeriodWords)..]
            == DaySuggestions[..3 - MentionCount(slots, PeriodWords)]
  {
    HintsThenDays(ReasonMentions(slots, "morning"), ReasonMentions(slots, "afternoon"), ReasonMentions(slots, "evening"));
    PeriodMentionCounts(slots);
  }

  /** The three period hints differ from each other and from the day
      suggestions. */
  lemma SuggestionTextsDistinct()
    ensures MorningHint !in DaySuggestions && AfternoonHint !in DaySuggestions && EveningHint !in DaySuggestions
    ensures MorningHint != AfternoonHint && MorningHint != EveningHint && AfternoonHint != EveningHint
  {
    assert |MorningHint| == |AfternoonHint| == |EveningHint| == 37;
    assert |DaySuggestions[0]| == 28 && |DaySuggestions[1]| == 20 && |DaySuggestions[2]| == 42;
    assert MorningHint[0] != AfternoonHint[0] && EveningHint[0] != AfternoonHint[0];
    assert MorningHint[10] != EveningHint[10];
  }

  // ---------------------------------------------------------------------
  // The result of a turn

  /** The dictionary `process_conversation` returns. */
  datatype LlmResult = LlmResult(
    response: string,
    nextState: ConversationState,
    requiresClarification: bool,
    extractedInfo: ExtractedInfo)

  const LlmErrorReply: string := "I'm sorry, I encountered an error. Could you please try again?"

  /** `process_conversation`. `chatReply` is the reply of the chat call,
      `None` when it raises; `extraction` is the parsed reply of the
      extraction call, `None` when that call or its JSON parse fails. */
  function ProcessConversation(state: ConversationState, chatReply: Option<string>,
                               extraction: Option<ExtractedInfo>): (r: LlmResult)
    ensures chatReply.None? ==>
      r.nextState == Error && r.requiresClarification && r.extractedInfo == NoExtractedInfo
      && r.response == LlmErrorReply
    ensures chatReply.Some? ==> r.response == chatReply.value
    ensures chatReply.Some? && extraction.None? ==> r.extractedInfo == NoExtractedInfo
    ensures chatReply.Some? && extraction.Some? ==> r.extractedInfo == extraction.value
    ensures chatReply.Some? ==>
      r.nextState == DetermineNextState(state, r.extractedInfo)
      && r.requiresClarification == NeedsClarification(state, r.extractedInfo)
  {
    match chatReply
    case None => LlmResult(LlmErrorReply, Error, true, NoExtractedInfo)
    case Some(reply) =>
      var info := extraction.GetOr(NoExtractedInfo);
      LlmResult(reply, DetermineNextState(state, info), NeedsClarification(state, info), info)
  }

  /** A failed extraction leaves nothing to act on: from the first states
      the table asks for the duration. */
  lemma FailedExtractionAsksDuration(state: ConversationState, reply: string)
    requires state.Initial? || state.CollectingDuration?
    ensures ProcessConversation(state, Some(reply), None).nextState == CollectingDuration
    ensures ProcessConversation(state, Some(reply), None).requiresClarification == state.CollectingDuration?
  {
  }
}
