/** The conversation engine: one context per session, a dialogue state
    machine that merges what the language model extracted into the meeting
    request, asks the time parser and the calendar, and answers each user
    message with a reply and the next state. */
module Engine {
  import opened Wrappers
  import opened Text
  import opened Clock
  import opened Seqs
  import opened Models
  import opened TimeParsing
  import opened Calendar
  import opened Llm

  // ---------------------------------------------------------------------
  // What the collaborators answer during one turn

  /** The answers of the services the engine calls but that are not part of
      this model: the chat and extraction calls of the language model, the
      fuzzy date parser, the busy list of the calendar for the searched week (`None` when that call
      fails) and the id the calendar gives a created event (`None` when
      insertion fails). */
  datatype Oracles = Oracles(
    chatReply: Option<string>,
    extraction: Option<ExtractedInfo>,
    fuzzyDate: Option<Timestamp>,
    busyEvents: Option<seq<BusyEvent>>,
    insertedId: Option<string>)

  /** The dictionary a state handler returns; a missing
      `suggested_actions` key is `None`. */
  datatype Reply = Reply(
    response: string,
    nextState: ConversationState,
    suggestedActions: Option<seq<string>>,
    requiresClarification: bool)

  // ---------------------------------------------------------------------
  // Merging extracted fields into the meeting request

  /** A present key overwrites, an absent one keeps the old value. */
  function Override<T>(current: Option<T>, update: Option<T>): Option<T> {
    if update.Some? then update else current
  }

  /** `_update_meeting_request`: every key present in the extraction
      overwrites the matching field. */
  function MergeExtracted(request: MeetingRequest, info: ExtractedInfo): MeetingRequest {
    MeetingRequest(
      info.durationMinutes.GetOr(request.durationMinutes),
      Override(request.preferredDate, info.preferredDate),
      Override(request.preferredTimeRange, info.preferredTimeRange),
      Override(request.specificTime, info.specificTime),
      Override(request.attendees, info.attendees),
      Override(request.title, info.title),
      Override(request.description, info.description))
  }

  /** Two extractions applied one after the other: the later one wins key by key. */
  function Overlay(first: ExtractedInfo, second: ExtractedInfo): ExtractedInfo {
    ExtractedInfo(
      Override(first.durationMinutes, second.durationMinutes),
      Override(first.preferredDate, second.preferredDate),
      Override(first.preferredTimeRange, second.preferredTimeRange),
      Override(first.specificTime, second.specificTime),
      Override(first.title, second.title),
      Override(first.description, second.description),
      Override(first.attendees, second.attendees))
  }

  /** The empty extraction changes nothing, applying one twice is applying
      it once, and two merges are one merge of the overlaid extractions. */
  lemma MergeLaws(request: MeetingRequest, first: ExtractedInfo, second: ExtractedInfo)
    ensures MergeExtracted(request, NoExtractedInfo) == request
    ensures MergeExtracted(MergeExtracted(request, first), first) == MergeExtracted(request, first)
    ensures MergeExtracted(MergeExtracted(request, first), second)
         == MergeExtracted(request, Overlay(first, second))
  {
  }

  /** The request a turn works on: the stored one, or a fresh 30-minute
      request, with the extraction merged in. */
  function MergedRequest(request: Option<MeetingRequest>, info: ExtractedInfo): (r: MeetingRequest)
    ensures info.durationMinutes.Some? ==> r.durationMinutes == info.durationMinutes.value
    ensures info.durationMinutes.None? && request.None? ==> r.durationMinutes == 30
    ensures info.specificTime.None? && request.None? ==> r.specificTime.None?
    ensures info.specificTime.None? && request.Some? ==> r.specificTime == request.value.specificTime
  {
    MergeExtracted(request.GetOr(NewMeetingRequest(30)), info)
  }

  // ---------------------------------------------------------------------
  // Initial state and duration collection

  /** `_handle_initial_state` and `_handle_duration_collection`, which have
      the same body: a truthy duration moves on to the time preference. */
  function DurationGate(request: Option<MeetingRequest>, llm: LlmResult): (r: Reply)
    ensures r.response == llm.response && r.suggestedActions.None?
    ensures r.nextState == CollectingTimePreference || r.nextState == CollectingDuration
    ensures r.nextState == CollectingTimePreference
        <==> request.Some? && request.value.durationMinutes != 0
    ensures r.requiresClarification <==> r.nextState == CollectingDuration
  {
    if request.Some? && request.value.durationMinutes != 0 then
      Reply(llm.response, CollectingTimePreference, None, false)
    else
      Reply(llm.response, CollectingDuration, None, true)
  }

  // ---------------------------------------------------------------------
  // Listing the slot options

  function OptionLabel(i: nat): string {
    "Option " + NatToString(i)
  }

  /** `[f"Option {i+1}" for i in range(n)]`. */
  function OptionLabels(n: nat): seq<string> {
    seq(n, i requires 0 <= i < n => OptionLabel(i + 1))
  }

  function OptionLine(i: nat, slot: TimeSlot): string {
    OptionLabel(i) + ": " + LongText(slot.startTime)
  }

  /** One line per slot, numbered from 1. */
  function OptionLines(slots: seq<TimeSlot>): seq<string> {
    seq(|slots|, i requires 0 <= i < |slots| => OptionLine(i + 1, slots[i]))
  }

  /** The text `_format_slot_options` builds. */
  function SlotOptionsText(slots: seq<TimeSlot>): string {
    JoinWith("\n", OptionLines(slots))
  }

  /** `_format_slot_options`. */
  method FormatSlotOptions(slots: seq<TimeSlot>) returns (text: string)
    ensures text == SlotOptionsText(slots)
  {
    var options: seq<string> := [];
    for i := 0 to |slots|
      invariant options == OptionLines(slots[..i])
    {
      assert OptionLines(slots[..i + 1]) == OptionLines(slots[..i]) + [OptionLine(i + 1, slots[i])];
      options := options + [OptionLabel(i + 1) + ": " + LongText(slots[i].startTime)];
    }
    assert slots[..|slots|] == slots;
    text := JoinWith("\n", options);
  }

  /** An option line holds no line break. */
  lemma OptionLineOneLine(i: nat, slot: TimeSlot)
    ensures '\n' !in OptionLine(i, slot)
  {
    NatToStringRoundTrip(i);
    LongTextOneLine(slot.startTime);
  }

  /** No option line breaks across lines. */
  lemma OptionLinesOneLine(slots: seq<TimeSlot>)
    ensures forall k :: 0 <= k < |slots| ==> '\n' !in OptionLines(slots)[k]
  {
    forall k | 0 <= k < |slots|
      ensures '\n' !in OptionLines(slots)[k]
    {
      OptionLineOneLine(k + 1, slots[k]);
    }
  }

  const OffersHeader: string := "Great! I found some available times:"
  const OffersFooter: string := "Which one works for you?"

  /** The reply offering slots. */
  function OffersText(shown: seq<TimeSlot>): string {
    OffersHeader + "\n" + SlotOptionsText(shown) + "\n" + OffersFooter
  }

  /** The offer is the join of its lines. */
  lemma OffersTextJoin(shown: seq<TimeSlot>)
    requires |shown| >= 1
    ensures JoinWith("\n", [OffersHeader] + OptionLines(shown) + [OffersFooter]) == OffersText(shown)
  {
    JoinWithFrame("\n", OffersHeader, OptionLines(shown), OffersFooter);
  }

  /** No line of the offer breaks across lines. */
  lemma OffersLinesOneLine(shown: seq<TimeSlot>)
    ensures var parts := [OffersHeader] + OptionLines(shown) + [OffersFooter];
      forall i :: 0 <= i < |parts| ==> '\n' !in parts[i]
  {
    var lines := OptionLines(shown);
    var parts := [OffersHeader] + lines + [OffersFooter];
    OptionLinesOneLine(shown);
    assert '\n' !in OffersHeader && '\n' !in OffersFooter;
    forall i | 0 <= i < |parts|
      ensures '\n' !in parts[i]
    {
      if 1 <= i <= |lines| {
        assert parts[i] == lines[i - 1];
      }
    }
  }

  /** Read line by line, the offer is the header, one line per shown slot in
      order, and the question. */
  lemma OffersTextLines(shown: seq<TimeSlot>)
    requires |shown| >= 1
    ensures SplitOn(OffersText(shown), '\n') == [OffersHeader] + OptionLines(shown) + [OffersFooter]
  {
    OffersTextJoin(shown);
    OffersLinesOneLine(shown);
    SplitJoin([OffersHeader] + OptionLines(shown) + [OffersFooter], '\n');
  }

  // ---------------------------------------------------------------------
  // Reading the user's choice of slot

  /** `option\s+(\d+)` matched at `i`: the number, if the pattern matches there. */
  function OptionAt(s: string, i: nat): Option<nat>
    requires i <= |s|
  {
    if i + 6 <= |s| && s[i..i + 6] == "option" then
      var digitsStart := Span(s, i + 6, IsSpace);
      var digitsEnd := Span(s, digitsStart, IsDigit);
      if digitsStart > i + 6 && digitsEnd > digitsStart then
        Some(DigitsValue(s[digitsStart..digitsEnd]))
      else None
    else None
  }

  /** `re.search(r'option\s+(\d+)', s)` from position `i`: the number of the
      leftmost match. */
  function FirstOption(s: string, i: nat): Option<nat>
    requires i <= |s|
    decreases |s| - i
  {
    if i == |s| then None
    else if OptionAt(s, i).Some? then OptionAt(s, i)
    else FirstOption(s, i + 1)
  }

  /** `strftime('%I:%M %p').lower()` of a slot's start. */
  function ClockKey(slot: TimeSlot): string {
    Lower(ClockText(slot.startTime))
  }

  /** The lower-cased input names an option number between 1 and `count`. */
  predicate PicksOption(text: string, count: nat) {
    FirstOption(text, 0).Some? && 1 <= FirstOption(text, 0).value <= count
  }

  /** `_parse_slot_selection`: an in-range option number picks that slot;
      otherwise the first slot whose clock time occurs in the input, and
      nothing when no slot's clock time occurs. */
  function ParseSlotSelection(userInput: string, slots: seq<TimeSlot>): (r: Option<TimeSlot>)
    ensures r.Some? ==> r.value in slots
    ensures PicksOption(Lower(userInput), |slots|) ==>
      r == Some(slots[FirstOption(Lower(userInput), 0).value - 1])
    ensures !PicksOption(Lower(userInput), |slots|) ==>
      (r.Some? <==> exists k :: 0 <= k < |slots| && Contains(Lower(userInput), ClockKey(slots[k])))
    ensures !PicksOption(Lower(userInput), |slots|) && r.Some? ==>
      exists k :: 0 <= k < |slots| && r == Some(slots[k])
        && Contains(Lower(userInput), ClockKey(slots[k]))
        && forall j :: 0 <= j < k ==> !Contains(Lower(userInput), ClockKey(slots[j]))
  {
    var text := Lower(userInput);
    var option := FirstOption(text, 0);
    if option.Some? && 1 <= option.value <= |slots| then Some(slots[option.value - 1])
    else
      match FirstWhere(slots, (slot: TimeSlot) => Contains(text, ClockKey(slot)))
      case Some(k) => Some(slots[k])
      case None => None
  }

  /** The label of a suggested action, typed back, selects that slot. */
  lemma SuggestedOptionSelects(slots: seq<TimeSlot>, i: nat)
    requires 1 <= i <= |slots|
    ensures ParseSlotSelection(OptionLabel(i), slots) == Some(slots[i - 1])
  {
    var digits := NatToString(i);
    NatToStringRoundTrip(i);
    LowerDigits(digits);
    LowerAppend("Option ", digits);
    var s := Lower(OptionLabel(i));
    assert s == "option " + digits;
    assert s[0..6] == "option" && s[6] == ' ';
    assert !IsSpace(s[7]);
    var digitsStart := Span(s, 6, IsSpace);
    assert digitsStart == 7;
    var digitsEnd := Span(s, 7, IsDigit);
    assert digitsEnd == |s|;
    assert s[7..|s|] == digits;
    assert OptionAt(s, 0) == Some(i);
  }

  /** The option pattern starts with an `o`. */
  lemma {:induction false} NoOptionWithoutO(s: string, i: nat)
    requires i <= |s|
    requires 'o' !in s
    ensures FirstOption(s, i).None?
    decreases |s| - i
  {
    if i < |s| {
      assert s[i] != 'o';
      NoOptionWithoutO(s, i + 1);
    }
  }

  /** A lower-cased clock time holds digits, `:`, a space, `a` or `p`, and `m`. */
  lemma ClockKeyHasNoO(slot: TimeSlot)
    ensures |ClockKey(slot)| == 8
    ensures 'o' !in ClockKey(slot)
  {
    var t := slot.startTime;
    var c := ClockText(t);
    Pad2RoundTrip(Hour12(t));
    Pad2RoundTrip(Minute(t));
    assert |c| == 8;
    forall k | 0 <= k < 8
      ensures LowerChar(c[k]) != 'o'
    {
      if k < 2 { assert c[k] == Pad2(Hour12(t))[k]; }
      else if 3 <= k < 5 { assert c[k] == Pad2(Minute(t))[k - 3]; }
      else if k >= 6 { assert c[k] == Period(t)[k - 6]; }
    }
  }

  /** Typing a slot's clock time back picks the first slot with that clock
      time: the one shown, or an earlier one at the same time of day. */
  lemma ClockTextSelects(slots: seq<TimeSlot>, k: nat)
    requires k < |slots|
    ensures var r := ParseSlotSelection(ClockText(slots[k].startTime), slots);
      r.Some? && ClockKey(r.value) == ClockKey(slots[k])
      && exists j :: 0 <= j <= k && r.value == slots[j]
  {
    var text := Lower(ClockText(slots[k].startTime));
    ClockKeyHasNoO(slots[k]);
    NoOptionWithoutO(text, 0);
    var p := (slot: TimeSlot) => Contains(text, ClockKey(slot));
    ContainsAt(text, ClockKey(slots[k]), 0);
    assert p(slots[k]);
    var found := FirstWhere(slots, p);
    assert found.Some? && found.value <= k;
    ClockKeyHasNoO(slots[found.value]);
    ContainsSameLength(text, ClockKey(slots[found.value]));
  }

  // ---------------------------------------------------------------------
  // Fixed replies

  const NeedMoreInformation: string :=
    "I need more information to check availability. What kind of meeting are you looking to schedule?"
  const NoSlotsPrefix: string := "I don't see any available slots in the next week. "
  const ChoiceNotUnderstood: string :=
    "I didn't understand your choice. Please select one of the available options or let me know if you'd like to see different times."
  const NeedSpecificTime: string :=
    "I need to know when you'd like to schedule the meeting. Please provide a specific time."
  const SchedulingFailed: string :=
    "I encountered an error while scheduling your meeting. Please try again or contact support if the issue persists."
  const NotSureHowToHelp: string :=
    "I'm not sure how to help with that. Could you please tell me what you need?"

  /** The four suggestions `_suggest_alternatives` chooses from. */
  const AlternativePrompts: seq<string> := [
    "Would you like to try a different time of day?",
    "How about scheduling for next week?",
    "Would a shorter meeting duration work?",
    "Would you prefer to schedule for a different day?"
  ]

  /** `_suggest_alternatives`: the first two suggestions joined by a space. */
  function SuggestAlternativesText(): (r: string)
    ensures r == AlternativePrompts[0] + " " + AlternativePrompts[1]
  {
    var firstTwo := AlternativePrompts[..2];
    assert firstTwo == [AlternativePrompts[0], AlternativePrompts[1]];
    assert firstTwo[1..] == [AlternativePrompts[1]];
    assert JoinWith(" ", firstTwo[1..]) == AlternativePrompts[1];
    JoinWith(" ", AlternativePrompts[..2])
  }

  // ---------------------------------------------------------------------
  // The state handlers as functions of a turn's inputs

  /** The exception a `TimeSlot` raises when the time parser reads its title. */
  const NoTitleAttribute: string := "AttributeError: 'TimeSlot' object has no attribute 'title'"

  /** What the time parser makes of the last input when the engine hands it
      the context's current slots as the events to compare against. The
      clock-time extraction runs first; after it, the context-event lookup
      reads the title of every event, which a slot does not have. */
  function TimeParse(lastInput: Option<string>, slots: seq<TimeSlot>, parserNow: Timestamp,
                     fuzzyDate: Option<Timestamp>): (r: Outcome<TimeExpression>)
    ensures ExtractSpecificTime(lastInput.GetOr(""), parserNow).Raised? ==>
      r == Raised(ExtractSpecificTime(lastInput.GetOr(""), parserNow).error)
    ensures ExtractSpecificTime(lastInput.GetOr(""), parserNow).Ok? && |slots| > 0 ==>
      r == Raised(NoTitleAttribute)
    ensures r.Ok? <==> ExtractSpecificTime(lastInput.GetOr(""), parserNow).Ok? && |slots| == 0
    ensures r.Ok? ==> r == ParsedExpression(lastInput.GetOr(""), [], parserNow, fuzzyDate)
  {
    if |slots| == 0 then ParsedExpression(lastInput.GetOr(""), [], parserNow, fuzzyDate)
    else
      match ExtractSpecificTime(lastInput.GetOr(""), parserNow)
      case Raised(error) => Raised(error)
      case Ok(_) => Raised(NoTitleAttribute)
  }

  /** `_handle_time_preference_collection` on the merged request, given what
      the time parser made of the last input: a time the parsed expression
      resolves to becomes the specific time. An error of the clock-time
      parser is not caught. */
  function TimePreferenceStep(request: MeetingRequest, parsed: Outcome<TimeExpression>, llm: LlmResult,
                              parserNow: Timestamp): (r: Outcome<(Reply, MeetingRequest)>)
    ensures r.Ok? ==> r.value.0.response == llm.response && r.value.0.suggestedActions.None?
    ensures r.Ok? ==> (r.value.0.nextState == CheckingAvailability <==> !r.value.0.requiresClarification)
    ensures r.Ok? ==> r.value.0.nextState == CheckingAvailability || r.value.0.nextState == CollectingTimePreference
    ensures r.Ok? ==> r.value.1.durationMinutes == request.durationMinutes
  {
    match parsed
    case Raised(error) => Raised(error)
    case Ok(expression) =>
      match ResolveTimeExpression(expression, parserNow)
      case Some(t) =>
        Ok((Reply(llm.response, CheckingAvailability, None, false), request.(specificTime := Some(t))))
      case None =>
        Ok((Reply(llm.response, CollectingTimePreference, None, true), request))
  }

  /** Where the availability search starts: the chosen time, or an hour from now. */
  function SearchStart(request: MeetingRequest, now: Timestamp): Timestamp {
    request.specificTime.GetOr(now + MinutesPerHour)
  }

  predicate IsAvailableSlot(slot: TimeSlot) {
    slot.isAvailable
  }

  /** The end of the week searched from `start`. */
  function WeekEnd(start: Timestamp): Timestamp {
    start + 7 * MinutesPerDay
  }

  /** The available slots of the week from `start`, in the order the
      calendar search emits them. */
  function FreeSlotsFrom(start: Timestamp, durationMinutes: int, config: CalendarConfig,
                         busy: seq<BusyEvent>): seq<TimeSlot>
  {
    Filter(SlotsFrom(start, WeekEnd(start), durationMinutes, config, busy), IsAvailableSlot)
  }

  /** The first three slots, or all of them when there are fewer. */
  function ShownSlots(slots: seq<TimeSlot>): seq<TimeSlot> {
    slots[..Min(3, |slots|)]
  }

  /** `_handle_availability_check`: the free slots of the week from the
      search start replace the context's slots, and the first three are
      offered. */
  function AvailabilityStep(request: Option<MeetingRequest>, slots: seq<TimeSlot>, now: Timestamp,
                            config: CalendarConfig, busy: Option<seq<BusyEvent>>): (r: (Reply, seq<TimeSlot>))
    ensures r.0.nextState == ConfirmingSlot <==> !r.0.requiresClarification
    ensures r.0.nextState == ConfirmingSlot || r.0.nextState == CollectingTimePreference || r.0.nextState == Initial
    ensures r.0.nextState == Initial <==> request.None?
    ensures request.None? ==> r.1 == slots
  {
    if request.None? then (Reply(NeedMoreInformation, Initial, None, true), slots)
    else
      var start := SearchStart(request.value, now);
      var available :=
        if busy.Some? then FreeSlotsFrom(start, request.value.durationMinutes, config, busy.value)
        else [];
      if |available| > 0 then
        var shown := ShownSlots(available);
        (Reply(OffersText(shown), ConfirmingSlot, Some(OptionLabels(|shown|)), false), available)
      else
        (Reply(NoSlotsPrefix + SuggestAlternativesText(), CollectingTimePreference, None, true), available)
  }

  /** The confirmation question for a chosen slot. */
  function ConfirmationText(durationMinutes: int, start: Timestamp): string {
    "Perfect! I'll schedule your " + IntToString(durationMinutes) + "-minute meeting for "
    + LongText(start) + ". Is that correct?"
  }

  /** `_handle_slot_confirmation`: a recognised choice becomes the specific
      time and is read back for confirmation; otherwise the user is asked
      again. */
  function ConfirmationStep(request: MeetingRequest, slots: seq<TimeSlot>, lastInput: Option<string>): (r: (Reply, MeetingRequest))
    ensures r.0.nextState == Scheduling <==> !r.0.requiresClarification
    ensures r.0.nextState == Scheduling || r.0.nextState == ConfirmingSlot
    ensures r.0.nextState == Scheduling <==> ParseSlotSelection(lastInput.GetOr(""), slots).Some?
    ensures r.0.nextState == Scheduling ==>
      exists k :: 0 <= k < |slots| && r.1 == request.(specificTime := Some(slots[k].startTime))
    ensures ParseSlotSelection(lastInput.GetOr(""), slots).Some? ==>
      r.1 == request.(specificTime := Some(ParseSlotSelection(lastInput.GetOr(""), slots).value.startTime))
      && r.0.response == ConfirmationText(request.durationMinutes, ParseSlotSelection(lastInput.GetOr(""), slots).value.startTime)
    ensures r.0.nextState == ConfirmingSlot ==> r.1 == request && r.0.response == ChoiceNotUnderstood
  {
    match ParseSlotSelection(lastInput.GetOr(""), slots)
    case Some(slot) =>
      (Reply(ConfirmationText(request.durationMinutes, slot.startTime), Scheduling, None, false),
       request.(specificTime := Some(slot.startTime)))
    case None => (Reply(ChoiceNotUnderstood, ConfirmingSlot, None, true), request)
  }

  /** `meeting_request.title or "Meeting"`. */
  function EventTitle(request: MeetingRequest): string {
    if request.title.Some? && request.title.value != "" then request.title.value else "Meeting"
  }

  /** The announcement of a created event. */
  function ScheduledText(start: Timestamp): string {
    "Excellent! I've successfully scheduled your meeting for " + LongText(start)
    + ". You'll receive a calendar invitation shortly."
  }

  /** `_handle_scheduling`: with a chosen time the event is created and
      announced at that time; a failed insert ends in the error state. */
  function SchedulingReply(request: Option<MeetingRequest>, insertedId: Option<string>): (r: Reply)
    ensures r.nextState == Completed
        <==> request.Some? && request.value.specificTime.Some? && insertedId.Some?
    ensures r.nextState == CollectingTimePreference
        <==> request.None? || request.value.specificTime.None?
    ensures r.nextState == Completed || r.nextState == CollectingTimePreference || r.nextState == Error
    ensures r.requiresClarification <==> !r.nextState.Completed?
    ensures r.nextState == Completed ==> r.response == ScheduledText(request.value.specificTime.value)
    ensures r.suggestedActions.None?
  {
    if request.None? || request.value.specificTime.None? then
      Reply(NeedSpecificTime, CollectingTimePreference, None, true)
    else
      match CreateEvent(request.value, EventTitle(request.value), insertedId)
      case Ok(Some(event)) => Reply(ScheduledText(event.startTime), Completed, None, false)
      case _ => Reply(SchedulingFailed, Error, None, true)
  }

  // ---------------------------------------------------------------------
  // One turn

  /** What a turn leaves behind: the reply, the meeting request and the
      current slots. */
  datatype Step = Step(reply: Reply, request: MeetingRequest, slots: seq<TimeSlot>)

  /** `_process_conversation_turn`: the language model reads the turn, its
      extraction is merged into the (possibly fresh) request, and the
      handler of the current state decides the reply. Completed and Error
      have no handler and start over. */
  function TurnStep(state: ConversationState, request: Option<MeetingRequest>, slots: seq<TimeSlot>,
                    lastInput: Option<string>, parsed: Outcome<TimeExpression>, now: Timestamp,
                    parserNow: Timestamp, config: CalendarConfig, oracles: Oracles): Outcome<Step>
  {
    var llm := ProcessConversation(state, oracles.chatReply, oracles.extraction);
    var merged := MergedRequest(request, llm.extractedInfo);
    match state
    case Initial => Ok(Step(DurationGate(Some(merged), llm), merged, slots))
    case CollectingDuration => Ok(Step(DurationGate(Some(merged), llm), merged, slots))
    case CollectingTimePreference =>
      (match TimePreferenceStep(merged, parsed, llm, parserNow)
       case Raised(error) => Raised(error)
       case Ok(result) => Ok(Step(result.0, result.1, slots)))
    case CheckingAvailability =>
      var result := AvailabilityStep(Some(merged), slots, now, config, oracles.busyEvents);
      Ok(Step(result.0, merged, result.1))
    case ConfirmingSlot =>
      var result := ConfirmationStep(merged, slots, lastInput);
      Ok(Step(result.0, result.1, slots))
    case Scheduling => Ok(Step(SchedulingReply(Some(merged), oracles.insertedId), merged, slots))
    case Completed => Ok(Step(Reply(NotSureHowToHelp, Initial, None, true), merged, slots))
    case Error => Ok(Step(Reply(NotSureHowToHelp, Initial, None, true), merged, slots))
  }

  /** In the two first states the turn keeps the slots and the merged
      request, relays the model's reply, and moves on to the time
      preference exactly when the duration is non-zero, asking again
      otherwise. */
  lemma DurationTransition(state: ConversationState, request: Option<MeetingRequest>, slots: seq<TimeSlot>,
                           lastInput: Option<string>, parsed: Outcome<TimeExpression>, now: Timestamp, parserNow: Timestamp,
                           config: CalendarConfig, oracles: Oracles)
    requires state.Initial? || state.CollectingDuration?
    ensures var llm := ProcessConversation(state, oracles.chatReply, oracles.extraction);
      var merged := MergedRequest(request, llm.extractedInfo);
      var step := TurnStep(state, request, slots, lastInput, parsed, now, parserNow, config, oracles);
      step.Ok? && step.value.request == merged && step.value.slots == slots
      && step.value.reply.response == llm.response
      && (step.value.reply.nextState == CollectingTimePreference <==> merged.durationMinutes != 0)
      && (step.value.reply.nextState == CollectingTimePreference || step.value.reply.nextState == CollectingDuration)
      && (step.value.reply.requiresClarification <==> step.value.reply.nextState == CollectingDuration)
  {
  }

  /** Collecting the time preference, the turn raises exactly when the
      parser does; otherwise it moves on to the availability check exactly
      when the parsed expression resolves, that time becoming the specific
      time, and asks again without changing the request when it does not. */
  lemma TimePreferenceTransition(request: Option<MeetingRequest>, slots: seq<TimeSlot>,
                                 lastInput: Option<string>, parsed: Outcome<TimeExpression>, now: Timestamp, parserNow: Timestamp,
                                 config: CalendarConfig, oracles: Oracles)
    ensures var llm := ProcessConversation(CollectingTimePreference, oracles.chatReply, oracles.extraction);
      var merged := MergedRequest(request, llm.extractedInfo);
      var step := TurnStep(CollectingTimePreference, request, slots, lastInput, parsed, now, parserNow, config, oracles);
      (step.Raised? <==> parsed.Raised?)
      && (step.Ok? ==>
            step.value.slots == slots
            && (step.value.reply.nextState == CheckingAvailability || step.value.reply.nextState == CollectingTimePreference)
            && (step.value.reply.nextState == CheckingAvailability <==> !step.value.reply.requiresClarification)
            && (step.value.reply.nextState == CheckingAvailability <==>
                  ResolveTimeExpression(parsed.value, parserNow).Some?)
            && (step.value.reply.nextState == CheckingAvailability ==>
                  step.value.request == merged.(specificTime := ResolveTimeExpression(parsed.value, parserNow)))
            && (step.value.reply.nextState == CollectingTimePreference ==> step.value.request == merged))
  {
  }

  /** Checking availability, the turn keeps the merged request, stores the
      free slots found, and offers them exactly when there are some;
      otherwise it asks for another time preference. */
  lemma AvailabilityTransition(request: Option<MeetingRequest>, slots: seq<TimeSlot>,
                               lastInput: Option<string>, parsed: Outcome<TimeExpression>, now: Timestamp, parserNow: Timestamp,
                               config: CalendarConfig, oracles: Oracles)
    ensures var llm := ProcessConversation(CheckingAvailability, oracles.chatReply, oracles.extraction);
      var merged := MergedRequest(request, llm.extractedInfo);
      var step := TurnStep(CheckingAvailability, request, slots, lastInput, parsed, now, parserNow, config, oracles);
      step.Ok? && step.value.request == merged
      && step.value.slots == AvailabilityStep(Some(merged), slots, now, config, oracles.busyEvents).1
      && (step.value.reply.nextState == ConfirmingSlot || step.value.reply.nextState == CollectingTimePreference)
      && (step.value.reply.nextState == ConfirmingSlot <==> !step.value.reply.requiresClarification)
      && (step.value.reply.nextState == ConfirmingSlot <==> |step.value.slots| > 0)
  {
  }

  /** Confirming a slot, the turn keeps the slots and either takes the start
      of one of them as the specific time and moves on to scheduling, or
      asks again with the request unchanged. */
  lemma ConfirmationTransition(request: Option<MeetingRequest>, slots: seq<TimeSlot>,
                               lastInput: Option<string>, parsed: Outcome<TimeExpression>, now: Timestamp, parserNow: Timestamp,
                               config: CalendarConfig, oracles: Oracles)
    ensures var llm := ProcessConversation(ConfirmingSlot, oracles.chatReply, oracles.extraction);
      var merged := MergedRequest(request, llm.extractedInfo);
      var step := TurnStep(ConfirmingSlot, request, slots, lastInput, parsed, now, parserNow, config, oracles);
      step.Ok? && step.value.slots == slots
      && (step.value.reply.nextState == Scheduling || step.value.reply.nextState == ConfirmingSlot)
      && (step.value.reply.nextState == Scheduling <==> !step.value.reply.requiresClarification)
      && (step.value.reply.nextState == Scheduling ==>
            exists k :: 0 <= k < |slots| && step.value.request == merged.(specificTime := Some(slots[k].startTime)))
      && (step.value.reply.nextState == ConfirmingSlot ==> step.value.request == merged)
      && (step.value.reply.nextState == Scheduling <==> ParseSlotSelection(lastInput.GetOr(""), slots).Some?)
      && (ParseSlotSelection(lastInput.GetOr(""), slots).Some? ==>
            step.value.request == merged.(specificTime := Some(ParseSlotSelection(lastInput.GetOr(""), slots).value.startTime))
            && step.value.reply.response
               == ConfirmationText(merged.durationMinutes, ParseSlotSelection(lastInput.GetOr(""), slots).value.startTime))
  {
  }

  /** Scheduling, the turn completes exactly when the merged request has a
      time and the calendar accepts the insert, announcing that time; it
      asks for a time when there is none and reports an error when the
      insert fails. */
  lemma SchedulingTransition(request: Option<MeetingRequest>, slots: seq<TimeSlot>,
                             lastInput: Option<string>, parsed: Outcome<TimeExpression>, now: Timestamp, parserNow: Timestamp,
                             config: CalendarConfig, oracles: Oracles)
    ensures var llm := ProcessConversation(Scheduling, oracles.chatReply, oracles.extraction);
      var merged := MergedRequest(request, llm.extractedInfo);
      var step := TurnStep(Scheduling, request, slots, lastInput, parsed, now, parserNow, config, oracles);
      step.Ok? && step.value.request == merged && step.value.slots == slots
      && (step.value.reply.nextState == Completed <==> merged.specificTime.Some? && oracles.insertedId.Some?)
      && (step.value.reply.nextState == CollectingTimePreference <==> merged.specificTime.None?)
      && (step.value.reply.nextState == Completed || step.value.reply.nextState == CollectingTimePreference
          || step.value.reply.nextState == Error)
      && (step.value.reply.requiresClarification <==> !step.value.reply.nextState.Completed?)
      && (step.value.reply.nextState == Completed ==>
            step.value.reply.response == ScheduledText(merged.specificTime.value))
  {
  }

  /** Completed and Error have no handler: the next message starts over. */
  lemma FinishedConversationRestarts(state: ConversationState, request: Option<MeetingRequest>,
                                     slots: seq<TimeSlot>, lastInput: Option<string>, parsed: Outcome<TimeExpression>, now: Timestamp,
                                     parserNow: Timestamp, config: CalendarConfig, oracles: Oracles)
    requires state.Completed? || state.Error?
    ensures var step := TurnStep(state, request, slots, lastInput, parsed, now, parserNow, config, oracles);
      step.Ok? && step.value.reply.nextState == Initial && step.value.reply.requiresClarification
      && step.value.reply.response == NotSureHowToHelp && step.value.slots == slots
  {
  }

  /** A turn raises exactly when it collects the time preference and the
      time parser raises (see `TimeParse`). */
  lemma TurnRaisesOnlyOnParseError(state: ConversationState, request: Option<MeetingRequest>,
                                   slots: seq<TimeSlot>, lastInput: Option<string>, parsed: Outcome<TimeExpression>, now: Timestamp,
                                   parserNow: Timestamp, config: CalendarConfig, oracles: Oracles)
    ensures TurnStep(state, request, slots, lastInput, parsed, now, parserNow, config, oracles).Raised?
        <==> state == CollectingTimePreference && parsed.Raised?
  {
    match state
    case Initial => DurationTransition(state, request, slots, lastInput, parsed, now, parserNow, config, oracles);
    case CollectingDuration => DurationTransition(state, request, slots, lastInput, parsed, now, parserNow, config, oracles);
    case CollectingTimePreference => TimePreferenceTransition(request, slots, lastInput, parsed, now, parserNow, config, oracles);
    case CheckingAvailability => AvailabilityTransition(request, slots, lastInput, parsed, now, parserNow, config, oracles);
    case ConfirmingSlot => ConfirmationTransition(request, slots, lastInput, parsed, now, parserNow, config, oracles);
    case Scheduling => SchedulingTransition(request, slots, lastInput, parsed, now, parserNow, config, oracles);
    case Completed => FinishedConversationRestarts(state, request, slots, lastInput, parsed, now, parserNow, config, oracles);
    case Error => FinishedConversationRestarts(state, request, slots, lastInput, parsed, now, parserNow, config, oracles);
  }

  /** The state a turn reaches when nothing needs clarifying: the
      duration question is skipped once a duration is known, and each later
      phase leads to the next one. */
  function FlowSuccessor(state: ConversationState): ConversationState {
    match state
    case Initial => CollectingTimePreference
    case CollectingDuration => CollectingTimePreference
    case CollectingTimePreference => CheckingAvailability
    case CheckingAvailability => ConfirmingSlot
    case ConfirmingSlot => Scheduling
    case Scheduling => Completed
    case Completed => Initial
    case Error => Initial
  }

  /** Outside the two final states the successor lies further along the
      flow and is never the error state. */
  lemma FlowSuccessorAdvances(state: ConversationState)
    requires !state.Completed? && !state.Error?
    ensures FlowRank(state) < FlowRank(FlowSuccessor(state)) && !FlowSuccessor(state).Error?
  {
  }

  /** A reply that needs no clarification goes to the successor state. */
  lemma TurnWithoutClarificationFollowsFlow(state: ConversationState, request: Option<MeetingRequest>,
                                            slots: seq<TimeSlot>, lastInput: Option<string>,
                                            parsed: Outcome<TimeExpression>, now: Timestamp,
                                            parserNow: Timestamp, config: CalendarConfig, oracles: Oracles)
    ensures var step := TurnStep(state, request, slots, lastInput, parsed, now, parserNow, config, oracles);
      step.Ok? && !step.value.reply.requiresClarification ==>
        !state.Completed? && !state.Error? && step.value.reply.nextState == FlowSuccessor(state)
  {
    match state
    case Initial => DurationTransition(state, request, slots, lastInput, parsed, now, parserNow, config, oracles);
    case CollectingDuration => DurationTransition(state, request, slots, lastInput, parsed, now, parserNow, config, oracles);
    case CollectingTimePreference => TimePreferenceTransition(request, slots, lastInput, parsed, now, parserNow, config, oracles);
    case CheckingAvailability => AvailabilityTransition(request, slots, lastInput, parsed, now, parserNow, config, oracles);
    case ConfirmingSlot => ConfirmationTransition(request, slots, lastInput, parsed, now, parserNow, config, oracles);
    case Scheduling => SchedulingTransition(request, slots, lastInput, parsed, now, parserNow, config, oracles);
    case Completed => FinishedConversationRestarts(state, request, slots, lastInput, parsed, now, parserNow, config, oracles);
    case Error => FinishedConversationRestarts(state, request, slots, lastInput, parsed, now, parserNow, config, oracles);
  }

  /** A reply that needs no clarification moves forward along the flow and
      never into the error state. */
  lemma TurnWithoutClarificationAdvances(state: ConversationState, request: Option<MeetingRequest>,
                                         slots: seq<TimeSlot>, lastInput: Option<string>,
                                         parsed: Outcome<TimeExpression>, now: Timestamp,
                                         parserNow: Timestamp, config: CalendarConfig, oracles: Oracles)
    ensures var step := TurnStep(state, request, slots, lastInput, parsed, now, parserNow, config, oracles);
      step.Ok? && !step.value.reply.requiresClarification ==>
        FlowRank(state) < FlowRank(step.value.reply.nextState) && !step.value.reply.nextState.Error?
  {
    var step := TurnStep(state, request, slots, lastInput, parsed, now, parserNow, config, oracles);
    TurnWithoutClarificationFollowsFlow(state, request, slots, lastInput, parsed, now, parserNow, config, oracles);
    if step.Ok? && !step.value.reply.requiresClarification {
      FlowSuccessorAdvances(state);
    }
  }

  /** The meeting is booked exactly when the turn runs in the scheduling
      state, the merged request has a time and the calendar accepts the
      insert. */
  lemma CompletedOnlyByBooking(state: ConversationState, request: Option<MeetingRequest>,
                               slots: seq<TimeSlot>, lastInput: Option<string>, parsed: Outcome<TimeExpression>, now: Timestamp,
                               parserNow: Timestamp, config: CalendarConfig, oracles: Oracles)
    ensures var step := TurnStep(state, request, slots, lastInput, parsed, now, parserNow, config, oracles);
      var merged := MergedRequest(request, ProcessConversation(state, oracles.chatReply, oracles.extraction).extractedInfo);
      step.Ok? && step.value.reply.nextState == Completed <==>
        state == Scheduling && merged.specificTime.Some? && oracles.insertedId.Some?
  {
    match state
    case Initial => DurationTransition(state, request, slots, lastInput, parsed, now, parserNow, config, oracles);
    case CollectingDuration => DurationTransition(state, request, slots, lastInput, parsed, now, parserNow, config, oracles);
    case CollectingTimePreference => TimePreferenceTransition(request, slots, lastInput, parsed, now, parserNow, config, oracles);
    case CheckingAvailability => AvailabilityTransition(request, slots, lastInput, parsed, now, parserNow, config, oracles);
    case ConfirmingSlot => ConfirmationTransition(request, slots, lastInput, parsed, now, parserNow, config, oracles);
    case Scheduling => SchedulingTransition(request, slots, lastInput, parsed, now, parserNow, config, oracles);
    case Completed => FinishedConversationRestarts(state, request, slots, lastInput, parsed, now, parserNow, config, oracles);
    case Error => FinishedConversationRestarts(state, request, slots, lastInput, parsed, now, parserNow, config, oracles);
  }

  /** The engine does not follow the language model's state table: with no
      duration extracted, the table asks for the duration, but the default
      30-minute request already counts as having one. */
  lemma FirstTurnSkipsDurationQuestion(reply: string, info: ExtractedInfo, lastInput: Option<string>,
                                       parsed: Outcome<TimeExpression>, now: Timestamp, parserNow: Timestamp,
                                       config: CalendarConfig, oracles: Oracles)
    requires oracles.chatReply == Some(reply) && oracles.extraction == Some(info)
    requires info.durationMinutes.None?
    ensures ProcessConversation(Initial, oracles.chatReply, oracles.extraction).nextState == CollectingDuration
    ensures var step := TurnStep(Initial, None, [], lastInput, parsed, now, parserNow, config, oracles);
      step.Ok? && step.value.reply.nextState == CollectingTimePreference
      && !step.value.reply.requiresClarification && step.value.request.durationMinutes == 30
  {
  }

  /** Typing a clock time while the time preference is collected fixes that
      time of day on the parser's reference day and moves on to the
      availability check. */
  lemma ClockTimeAnswerFixesTime(t: Timestamp, request: Option<MeetingRequest>, now: Timestamp,
                                 parserNow: Timestamp, config: CalendarConfig, oracles: Oracles)
    ensures var input := Some(ClockText(t));
      var step := TurnStep(CollectingTimePreference, request, [], input,
                           TimeParse(input, [], parserNow, oracles.fuzzyDate), now, parserNow, config, oracles);
      step.Ok? && step.value.reply.nextState == CheckingAvailability && !step.value.reply.requiresClarification
      && step.value.request.specificTime == Some(At(parserNow, Hour(t), Minute(t)))
  {
    ClockTextResolves(t, [], parserNow, oracles.fuzzyDate);
  }

  /** The slots an availability check keeps are the free slots, in order,
      that the calendar search emits for the week from the search start. */
  lemma AvailabilityKeepsFreeSlots(request: MeetingRequest, slots: seq<TimeSlot>, now: Timestamp,
                                   config: CalendarConfig, busy: seq<BusyEvent>)
    ensures var start := SearchStart(request, now);
      var kept := AvailabilityStep(Some(request), slots, now, config, Some(busy)).1;
      IsSubsequence(kept, SlotsFrom(start, WeekEnd(start), request.durationMinutes, config, busy))
      && (forall k :: 0 <= k < |kept| ==>
            kept[k].isAvailable
            && WellFormedSlot(kept[k], start, WeekEnd(start), request.durationMinutes, config, busy))
      && (forall k ::
            0 <= k < |SlotsFrom(start, WeekEnd(start), request.durationMinutes, config, busy)|
            && SlotsFrom(start, WeekEnd(start), request.durationMinutes, config, busy)[k].isAvailable
            ==> SlotsFrom(start, WeekEnd(start), request.durationMinutes, config, busy)[k] in kept)
  {
    var start := SearchStart(request, now);
    FreeSlotsOfTheWeek(start, request.durationMinutes, config, busy);
    assert AvailabilityStep(Some(request), slots, now, config, Some(busy)).1
        == FreeSlotsFrom(start, request.durationMinutes, config, busy);
  }

  /** The free slots of a week are the emitted slots that are available:
      each inside the window, on the grid, at a working hour and free of
      every busy event, and none of the available ones left out. */
  lemma FreeSlotsOfTheWeek(start: Timestamp, durationMinutes: int, config: CalendarConfig, busy: seq<BusyEvent>)
    ensures IsSubsequence(FreeSlotsFrom(start, durationMinutes, config, busy),
                          SlotsFrom(start, WeekEnd(start), durationMinutes, config, busy))
    ensures forall k :: 0 <= k < |FreeSlotsFrom(start, durationMinutes, config, busy)| ==>
      FreeSlotsFrom(start, durationMinutes, config, busy)[k].isAvailable
      && WellFormedSlot(FreeSlotsFrom(start, durationMinutes, config, busy)[k],
                        start, WeekEnd(start), durationMinutes, config, busy)
    ensures forall k ::
      0 <= k < |SlotsFrom(start, WeekEnd(start), durationMinutes, config, busy)|
      && SlotsFrom(start, WeekEnd(start), durationMinutes, config, busy)[k].isAvailable
      ==> SlotsFrom(start, WeekEnd(start), durationMinutes, config, busy)[k]
          in FreeSlotsFrom(start, durationMinutes, config, busy)
  {
    var fetched := SlotsFrom(start, WeekEnd(start), durationMinutes, config, busy);
    var kept := FreeSlotsFrom(start, durationMinutes, config, busy);
    FilterSpec(fetched, IsAvailableSlot);
    SlotsWellFormed(start, WeekEnd(start), durationMinutes, config, busy);
    forall k | 0 <= k < |kept|
      ensures WellFormedSlot(kept[k], start, WeekEnd(start), durationMinutes, config, busy)
    {
      assert kept[k] in fetched;
      var j :| 0 <= j < |fetched| && fetched[j] == kept[k];
    }
  }

  /** With free slots the reply offers the first three, line by line, with
      one suggested action per offered slot; without, it asks for another
      time and suggests alternatives. */
  lemma AvailabilityOffersFirstThree(request: MeetingRequest, slots: seq<TimeSlot>, now: Timestamp,
                                     config: CalendarConfig, busy: Option<seq<BusyEvent>>)
    ensures var result := AvailabilityStep(Some(request), slots, now, config, busy);
      var kept := result.1;
      (result.0.nextState == ConfirmingSlot <==> |kept| > 0)
      && (|kept| > 0 ==>
            !result.0.requiresClarification
            && result.0.suggestedActions == Some(OptionLabels(Min(3, |kept|)))
            && SplitOn(result.0.response, '\n')
               == [OffersHeader] + OptionLines(kept[..Min(3, |kept|)]) + [OffersFooter])
      && (|kept| == 0 ==>
            result.0.nextState == CollectingTimePreference && result.0.requiresClarification
            && result.0.response == NoSlotsPrefix + AlternativePrompts[0] + " " + AlternativePrompts[1])
  {
    var result := AvailabilityStep(Some(request), slots, now, config, busy);
    if |result.1| > 0 {
      OffersTextLines(ShownSlots(result.1));
    }
  }

  /** A failed calendar listing finds nothing. */
  lemma AvailabilityWithoutCalendar(request: MeetingRequest, slots: seq<TimeSlot>, now: Timestamp,
                                    config: CalendarConfig)
    ensures AvailabilityStep(Some(request), slots, now, config, None).1 == []
  {
  }
}
