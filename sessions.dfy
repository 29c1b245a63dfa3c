/** The conversation engine as an object: a table of per-session contexts,
    and `process_message`, which records the user's message, runs one turn
    and records the reply. */
module Sessions {
  import opened Wrappers
  import opened Clock
  import opened Seqs
  import opened Models
  import opened TimeParsing
  import opened Calendar
  import opened Llm
  import opened Engine

  // ---------------------------------------------------------------------
  // One message as a function of the session's context

  /** The fields of a session's context that a message reads and writes. */
  datatype Snapshot = Snapshot(
    state: ConversationState,
    request: Option<MeetingRequest>,
    history: seq<HistoryEntry>,
    slots: seq<TimeSlot>,
    lastInput: Option<string>,
    clarification: Option<string>)

  /** The context of a session seen for the first time. */
  const FreshSnapshot: Snapshot := Snapshot(Initial, None, [], [], None, None)

  /** The response a turn's reply becomes (without audio). */
  function ResponseOf(reply: Reply): (m: MessageResponse)
    ensures m.response == reply.response && m.conversationState == reply.nextState
    ensures m.suggestedActions == reply.suggestedActions
    ensures m.requiresClarification == reply.requiresClarification
  {
    MessageResponse(reply.response, reply.nextState, reply.suggestedActions, reply.requiresClarification)
  }

  /** `process_message` on the context `before`: the input becomes the last
      input and a user entry of the history, the turn runs, and its reply
      becomes an assistant entry and the new state. When the turn raises,
      the user entry and the merged request stay and nothing else changes.
      Both entries carry the time `now`. */
  function MessageStep(before: Snapshot, userInput: string, now: Timestamp, parserNow: Timestamp,
                       config: CalendarConfig, oracles: Oracles): (Outcome<MessageResponse>, Snapshot)
  {
    var input := Some(userInput);
    var asked := before.history + [HistoryEntry("user", userInput, now)];
    match TurnStep(before.state, before.request, before.slots, input,
                   TimeParse(input, before.slots, parserNow, oracles.fuzzyDate), now, parserNow, config, oracles)
    case Raised(error) =>
      var llm := ProcessConversation(before.state, oracles.chatReply, oracles.extraction);
      (Raised(error),
       before.(request := Some(MergedRequest(before.request, llm.extractedInfo)), history := asked,
               lastInput := input))
    case Ok(step) =>
      (Ok(ResponseOf(step.reply)),
       before.(state := step.reply.nextState, request := Some(step.request),
               history := asked + [HistoryEntry("assistant", step.reply.response, now)], slots := step.slots,
               lastInput := input))
  }

  /** The history only grows: the user's message is appended, then the
      reply when there is one, and the response reports the new state. A
      raised turn leaves the state and the slots as they were. */
  lemma MessageHistoryGrows(before: Snapshot, userInput: string, now: Timestamp, parserNow: Timestamp,
                            config: CalendarConfig, oracles: Oracles)
    ensures var (r, after) := MessageStep(before, userInput, now, parserNow, config, oracles);
      after.lastInput == Some(userInput) && after.request.Some?
      && |after.history| == |before.history| + (if r.Ok? then 2 else 1)
      && after.history[..|before.history|] == before.history
      && after.history[|before.history|] == HistoryEntry("user", userInput, now)
      && (r.Ok? ==>
            after.history[|before.history| + 1] == HistoryEntry("assistant", r.value.response, now)
            && after.state == r.value.conversationState)
      && (r.Raised? ==> after.state == before.state && after.slots == before.slots)
  {
  }

  /** Answering an offer with one of the suggested actions, "Option i",
      books that offered slot's start for scheduling and keeps the slots. */
  lemma OfferedOptionSchedules(before: Snapshot, i: nat, now: Timestamp, parserNow: Timestamp,
                               config: CalendarConfig, oracles: Oracles)
    requires before.state == ConfirmingSlot && 1 <= i <= |before.slots|
    ensures var (r, after) := MessageStep(before, OptionLabel(i), now, parserNow, config, oracles);
      r.Ok? && after.state == Scheduling && !r.value.requiresClarification
      && after.request.Some? && after.request.value.specificTime == Some(before.slots[i - 1].startTime)
      && after.slots == before.slots
  {
    SuggestedOptionSelects(before.slots, i);
  }

  /** After a finished or failed conversation the next message starts over
      in the initial state, but the slots of the last offer stay in the
      context. */
  lemma RestartKeepsSlots(before: Snapshot, userInput: string, now: Timestamp, parserNow: Timestamp,
                          config: CalendarConfig, oracles: Oracles)
    requires before.state.Completed? || before.state.Error?
    ensures var (r, after) := MessageStep(before, userInput, now, parserNow, config, oracles);
      r.Ok? && r.value.response == NotSureHowToHelp && after.state == Initial && after.slots == before.slots
  {
    var input := Some(userInput);
    FinishedConversationRestarts(before.state, before.request, before.slots, input,
      TimeParse(input, before.slots, parserNow, oracles.fuzzyDate), now, parserNow, config, oracles);
  }

  /** Collecting the time preference while slots of an earlier offer are
      still stored, every message raises, since the parser is handed those
      slots as events and reads their title: the session keeps its state
      and its slots, so it stays in this condition for good. */
  lemma StoredSlotsBlockTimePreference(before: Snapshot, userInput: string, now: Timestamp,
                                       parserNow: Timestamp, config: CalendarConfig, oracles: Oracles)
    requires before.state == CollectingTimePreference && |before.slots| > 0
    ensures var (r, after) := MessageStep(before, userInput, now, parserNow, config, oracles);
      r.Raised? && after.state == CollectingTimePreference && after.slots == before.slots
  {
    var input := Some(userInput);
    TimePreferenceTransition(before.request, before.slots, input,
      TimeParse(input, before.slots, parserNow, oracles.fuzzyDate), now, parserNow, config, oracles);
  }

  /** In the first states a message that extracts no duration moves on to
      the time preference when the stored request has a non-zero duration,
      and keeps the slots. */
  lemma KnownDurationMovesOn(before: Snapshot, userInput: string, now: Timestamp, parserNow: Timestamp,
                             config: CalendarConfig, oracles: Oracles)
    requires before.state.Initial? || before.state.CollectingDuration?
    requires before.request.Some? && before.request.value.durationMinutes != 0
    requires oracles.extraction.None? || oracles.extraction.value.durationMinutes.None?
    ensures var (r, after) := MessageStep(before, userInput, now, parserNow, config, oracles);
      r.Ok? && after.state == CollectingTimePreference && after.slots == before.slots
  {
    var input := Some(userInput);
    DurationTransition(before.state, before.request, before.slots, input,
      TimeParse(input, before.slots, parserNow, oracles.fuzzyDate), now, parserNow, config, oracles);
  }

  /** A session whose booking completed after an offer cannot book again:
      the next message restarts it, a second one brings it to the time
      preference (neither of them giving a new duration), and there every
      message raises. */
  lemma BookedSessionBlocks(s0: Snapshot, s1: Snapshot, s2: Snapshot, inputs: seq<string>, now: Timestamp,
                            parserNow: Timestamp, config: CalendarConfig, oracles: seq<Oracles>)
    requires |inputs| == 3 && |oracles| == 3
    requires s0.state == Completed && |s0.slots| > 0 && s0.request.Some? && s0.request.value.durationMinutes != 0
    requires forall k :: 0 <= k < 2 ==> oracles[k].extraction.None? || oracles[k].extraction.value.durationMinutes.None?
    requires s1 == MessageStep(s0, inputs[0], now, parserNow, config, oracles[0]).1
    requires s2 == MessageStep(s1, inputs[1], now, parserNow, config, oracles[1]).1
    ensures s2.state == CollectingTimePreference
    ensures MessageStep(s2, inputs[2], now, parserNow, config, oracles[2]).0.Raised?
  {
    RestartKeepsSlots(s0, inputs[0], now, parserNow, config, oracles[0]);
    MessageHistoryGrows(s0, inputs[0], now, parserNow, config, oracles[0]);
    assert s1.request.value.durationMinutes == s0.request.value.durationMinutes;
    KnownDurationMovesOn(s1, inputs[1], now, parserNow, config, oracles[1]);
    StoredSlotsBlockTimePreference(s2, inputs[2], now, parserNow, config, oracles[2]);
  }

  // ---------------------------------------------------------------------
  // The engine object

  /** The fields of a context that `process_message` works on. */
  function SnapshotOf(context: ConversationContext): Snapshot
    reads context
  {
    Snapshot(context.state, context.meetingRequest, context.conversationHistory,
             context.currentAvailableSlots, context.lastUserInput, context.clarificationNeeded)
  }

  /** `ConversationEngine`: the contexts by session id, the calendar
      configuration, and the clock of the time parser, which reads the time
      once, when the engine builds it. */
  class ConversationEngine {
    var contexts: map<string, ConversationContext>
    const calendarConfig: CalendarConfig
    const parserNow: Timestamp

    /** Every context is filed under its own session id, so two ids never
        share a context. */
    ghost predicate Valid()
      reads this
    {
      forall id :: id in contexts ==> contexts[id].sessionId == id
    }

    constructor (parserNow: Timestamp)
      ensures Valid() && contexts == map[]
      ensures calendarConfig == DefaultCalendarConfig && this.parserNow == parserNow
    {
      contexts := map[];
      calendarConfig := DefaultCalendarConfig;
      this.parserNow := parserNow;
    }

    /** The context of a session as the next message will find it: the
        stored one, or a fresh one for an unknown id. */
    function SessionSnapshot(sessionId: string): Snapshot
      reads this, if sessionId in contexts then {contexts[sessionId]} else {}
    {
      if sessionId in contexts then SnapshotOf(contexts[sessionId]) else FreshSnapshot
    }

    /** `_get_or_create_context`: an unknown id gets a fresh context in the
        initial state; a known one keeps its context. */
    method GetOrCreateContext(sessionId: string) returns (context: ConversationContext)
      requires Valid()
      modifies this
      ensures Valid() && sessionId in contexts && context == contexts[sessionId]
      ensures old(sessionId in contexts) ==> contexts == old(contexts)
      ensures old(sessionId !in contexts) ==>
        fresh(context) && contexts == old(contexts)[sessionId := context] && SnapshotOf(context) == FreshSnapshot
    {
      if sessionId !in contexts {
        var created := new ConversationContext(sessionId, Initial);
        contexts := contexts[sessionId := created];
      }
      context := contexts[sessionId];
    }

    /** `get_conversation_context`: the stored context, if any. */
    method GetConversationContext(sessionId: string) returns (context: Option<ConversationContext>)
      ensures context.Some? <==> sessionId in contexts
      ensures context.Some? ==> context.value == contexts[sessionId]
    {
      if sessionId in contexts {
        return Some(contexts[sessionId]);
      }
      return None;
    }

    /** `clear_conversation_context`: forgets a session and reports whether
        it was known; every other session keeps its context. */
    method ClearConversationContext(sessionId: string) returns (removed: bool)
      requires Valid()
      modifies this
      ensures Valid()
      ensures removed <==> sessionId in old(contexts)
      ensures contexts == old(contexts) - {sessionId}
    {
      removed := sessionId in contexts;
      if removed {
        contexts := contexts - {sessionId};
      }
    }

    /** `_update_meeting_request`: the present keys, one after the other. */
    method UpdateMeetingRequest(context: ConversationContext, info: ExtractedInfo)
      requires context.meetingRequest.Some?
      modifies context
      ensures context.meetingRequest == Some(MergeExtracted(old(context.meetingRequest.value), info))
      ensures SnapshotOf(context) == old(SnapshotOf(context)).(request := context.meetingRequest)
    {
      var request := context.meetingRequest.value;
      if info.durationMinutes.Some? {
        request := request.(durationMinutes := info.durationMinutes.value);
      }
      if info.preferredDate.Some? {
        request := request.(preferredDate := info.preferredDate);
      }
      if info.preferredTimeRange.Some? {
        request := request.(preferredTimeRange := info.preferredTimeRange);
      }
      if info.specificTime.Some? {
        request := request.(specificTime := info.specificTime);
      }
      if info.title.Some? {
        request := request.(title := info.title);
      }
      if info.description.Some? {
        request := request.(description := info.description);
      }
      if info.attendees.Some? {
        request := request.(attendees := info.attendees);
      }
      context.meetingRequest := Some(request);
    }

    /** `_handle_time_preference_collection`: the parser reads the last
        input against the context's slots; a resolved time becomes the
        specific time. */
    method HandleTimePreferenceCollection(context: ConversationContext, llm: LlmResult, fuzzyDate: Option<Timestamp>)
      returns (r: Outcome<Reply>)
      requires context.meetingRequest.Some?
      modifies context
      ensures var step := TimePreferenceStep(old(context.meetingRequest.value),
                TimeParse(old(context.lastUserInput), old(context.currentAvailableSlots), parserNow, fuzzyDate),
                llm, parserNow);
        (step.Raised? ==> r == Raised(step.error) && SnapshotOf(context) == old(SnapshotOf(context)))
        && (step.Ok? ==>
              r == Ok(step.value.0)
              && SnapshotOf(context) == old(SnapshotOf(context)).(request := Some(step.value.1)))
    {
      var text := context.lastUserInput.GetOr("");
      var parsed: Outcome<TimeExpression>;
      if |context.currentAvailableSlots| == 0 {
        parsed := ParseTimeExpression(text, [], parserNow, fuzzyDate);
      } else {
        var specific := ExtractSpecificTime(text, parserNow);
        parsed := if specific.Raised? then Raised(specific.error) else Raised(NoTitleAttribute);
      }
      if parsed.Raised? {
        return Raised(parsed.error);
      }
      var resolved := ResolveTimeExpression(parsed.value, parserNow);
      if resolved.Some? {
        context.meetingRequest := Some(context.meetingRequest.value.(specificTime := resolved));
        return Ok(Reply(llm.response, CheckingAvailability, None, false));
      }
      return Ok(Reply(llm.response, CollectingTimePreference, None, true));
    }

    /** `_handle_availability_check`: the free slots of the week from the
        search start replace the context's slots and the first three are
        offered. */
    method HandleAvailabilityCheck(context: ConversationContext, now: Timestamp, busy: Option<seq<BusyEvent>>)
      returns (reply: Reply)
      modifies context
      ensures var result := AvailabilityStep(old(context.meetingRequest), old(context.currentAvailableSlots),
                                             now, calendarConfig, busy);
        reply == result.0 && SnapshotOf(context) == old(SnapshotOf(context)).(slots := result.1)
    {
      if context.meetingRequest.None? {
        return Reply(NeedMoreInformation, Initial, None, true);
      }
      var request := context.meetingRequest.value;
      var startDate := SearchStart(request, now);
      var endDate := WeekEnd(startDate);
      var fetched := GetAvailableSlots(startDate, endDate, request.durationMinutes, calendarConfig, busy);
      context.currentAvailableSlots := Filter(fetched, IsAvailableSlot);
      if |context.currentAvailableSlots| > 0 {
        var shown := context.currentAvailableSlots[..Min(3, |context.currentAvailableSlots|)];
        var optionsText := FormatSlotOptions(shown);
        return Reply(OffersHeader + "\n" + optionsText + "\n" + OffersFooter, ConfirmingSlot,
                     Some(OptionLabels(|shown|)), false);
      }
      return Reply(NoSlotsPrefix + SuggestAlternativesText(), CollectingTimePreference, None, true);
    }

    /** `_handle_slot_confirmation`: a recognised choice becomes the
        specific time. */
    method HandleSlotConfirmation(context: ConversationContext) returns (reply: Reply)
      requires context.meetingRequest.Some?
      modifies context
      ensures var result := ConfirmationStep(old(context.meetingRequest.value), old(context.currentAvailableSlots),
                                             old(context.lastUserInput));
        reply == result.0 && SnapshotOf(context) == old(SnapshotOf(context)).(request := Some(result.1))
    {
      var request := context.meetingRequest.value;
      var selected := ParseSlotSelection(context.lastUserInput.GetOr(""), context.currentAvailableSlots);
      if selected.Some? {
        context.meetingRequest := Some(request.(specificTime := Some(selected.value.startTime)));
        return Reply(ConfirmationText(request.durationMinutes, selected.value.startTime), Scheduling, None, false);
      }
      return Reply(ChoiceNotUnderstood, ConfirmingSlot, None, true);
    }

    /** `_process_conversation_turn`: the model reads the turn, its
        extraction is merged into the request (created with 30 minutes when
        there is none), and the handler of the current state answers. The
        state, the history and the last input are left to the caller. */
    method ProcessConversationTurn(context: ConversationContext, now: Timestamp, oracles: Oracles)
      returns (r: Outcome<Reply>)
      modifies context
      ensures var llm := ProcessConversation(old(context.state), oracles.chatReply, oracles.extraction);
        var step := TurnStep(old(context.state), old(context.meetingRequest), old(context.currentAvailableSlots),
                             old(context.lastUserInput),
                             TimeParse(old(context.lastUserInput), old(context.currentAvailableSlots), parserNow,
                                       oracles.fuzzyDate),
                             now, parserNow, calendarConfig, oracles);
        (step.Raised? ==>
           r == Raised(step.error)
           && SnapshotOf(context)
              == old(SnapshotOf(context)).(request := Some(MergedRequest(old(context.meetingRequest), llm.extractedInfo))))
        && (step.Ok? ==>
              r == Ok(step.value.reply)
              && SnapshotOf(context)
                 == old(SnapshotOf(context)).(request := Some(step.value.request), slots := step.value.slots))
    {
      var llm := ProcessConversation(context.state, oracles.chatReply, oracles.extraction);
      if context.meetingRequest.None? {
        context.meetingRequest := Some(NewMeetingRequest(30));
      }
      UpdateMeetingRequest(context, llm.extractedInfo);
      match context.state
      case Initial =>
        r := Ok(DurationGate(context.meetingRequest, llm));
      case CollectingDuration =>
        r := Ok(DurationGate(context.meetingRequest, llm));
      case CollectingTimePreference =>
        r := HandleTimePreferenceCollection(context, llm, oracles.fuzzyDate);
      case CheckingAvailability =>
        var reply := HandleAvailabilityCheck(context, now, oracles.busyEvents);
        r := Ok(reply);
      case ConfirmingSlot =>
        var reply := HandleSlotConfirmation(context);
        r := Ok(reply);
      case Scheduling =>
        r := Ok(SchedulingReply(context.meetingRequest, oracles.insertedId));
      case Completed =>
        r := Ok(Reply(NotSureHowToHelp, Initial, None, true));
      case Error =>
        r := Ok(Reply(NotSureHowToHelp, Initial, None, true));
    }

    /** The body of `process_message` on a session's context: it records
        the input and the user entry, runs the turn, and records the reply
        as the assistant entry and the new state. */
    method RecordMessage(context: ConversationContext, userInput: string, now: Timestamp, oracles: Oracles)
      returns (r: Outcome<MessageResponse>)
      modifies context
      ensures (r, SnapshotOf(context))
           == MessageStep(old(SnapshotOf(context)), userInput, now, parserNow, calendarConfig, oracles)
    {
      context.lastUserInput := Some(userInput);
      context.conversationHistory := context.conversationHistory + [HistoryEntry("user", userInput, now)];
      var turn := ProcessConversationTurn(context, now, oracles);
      if turn.Raised? {
        return Raised(turn.error);
      }
      var reply := turn.value;
      context.conversationHistory := context.conversationHistory + [HistoryEntry("assistant", reply.response, now)];
      context.state := reply.nextState;
      r := Ok(MessageResponse(reply.response, context.state, reply.suggestedActions, reply.requiresClarification));
    }

    /** `process_message`: the session's context, created when the id is
        new, takes the message. Only this session's context changes, and the
        table gains at most this session. */
    method ProcessMessage(sessionId: string, userInput: string, now: Timestamp, oracles: Oracles)
      returns (r: Outcome<MessageResponse>)
      requires Valid()
      modifies this, if sessionId in contexts then {contexts[sessionId]} else {}
      ensures Valid()
      ensures sessionId in contexts && contexts == old(contexts)[sessionId := contexts[sessionId]]
      ensures sessionId in old(contexts) ==> contexts[sessionId] == old(contexts[sessionId])
      ensures (r, SessionSnapshot(sessionId))
           == MessageStep(old(SessionSnapshot(sessionId)), userInput, now, parserNow, calendarConfig, oracles)
    {
      var context := GetOrCreateContext(sessionId);
      r := RecordMessage(context, userInput, now, oracles);
    }
  }
}
