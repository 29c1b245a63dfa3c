/** The records and the state enum that the conversation engine, the time
    parser, the language-model layer and the calendar service share. */
module Models {
  import opened Wrappers
  import opened Clock

  /** The eight dialogue states. */
  datatype ConversationState =
    | Initial
    | CollectingDuration
    | CollectingTimePreference
    | CheckingAvailability
    | ConfirmingSlot
    | Scheduling
    | Completed
    | Error
  {
    /** The string value of the `str` enum member. */
    function Value(): string {
      match this
      case Initial => "initial"
      case CollectingDuration => "collecting_duration"
      case CollectingTimePreference => "collecting_time_preference"
      case CheckingAvailability => "checking_availability"
      case ConfirmingSlot => "confirming_slot"
      case Scheduling => "scheduling"
      case Completed => "completed"
      case Error => "error"
    }
  }

  /** `ConversationState(value)`: the member with that value, if any. */
  function ParseState(value: string): (r: Option<ConversationState>)
    ensures r.Some? ==> r.value.Value() == value
  {
    if value == "initial" then Some(Initial)
    else if value == "collecting_duration" then Some(CollectingDuration)
    else if value == "collecting_time_preference" then Some(CollectingTimePreference)
    else if value == "checking_availability" then Some(CheckingAvailability)
    else if value == "confirming_slot" then Some(ConfirmingSlot)
    else if value == "scheduling" then Some(Scheduling)
    else if value == "completed" then Some(Completed)
    else if value == "error" then Some(Error)
    else None
  }

  /** Every member is found again from its value, so the eight values are
      pairwise distinct. */
  lemma {:induction false} StateValueRoundTrip(s: ConversationState)
    ensures ParseState(s.Value()) == Some(s)
  {
    match s
    case Initial =>
    case CollectingDuration =>
    case CollectingTimePreference =>
    case CheckingAvailability =>
    case ConfirmingSlot =>
    case Scheduling =>
    case Completed =>
    case Error =>
  }

  /** A stored event as the services see it. */
  datatype CalendarEvent = CalendarEvent(
    id: Option<string>,
    title: string,
    startTime: Timestamp,
    endTime: Timestamp,
    description: Option<string>,
    attendees: Option<seq<string>>)

  /** A candidate meeting window with its availability verdict. */
  datatype TimeSlot = TimeSlot(
    startTime: Timestamp,
    endTime: Timestamp,
    isAvailable: bool,
    conflictReason: Option<string>)

  /** `TimeSlot(start_time=…, end_time=…)` with the declared defaults. */
  function NewTimeSlot(startTime: Timestamp, endTime: Timestamp): (s: TimeSlot)
    ensures s.isAvailable && s.conflictReason.None?
    ensures s.startTime == startTime && s.endTime == endTime
  {
    TimeSlot(startTime, endTime, true, None)
  }

  /** What is known so far about the meeting to book. */
  datatype MeetingRequest = MeetingRequest(
    durationMinutes: int,
    preferredDate: Option<Timestamp>,
    preferredTimeRange: Option<string>,
    specificTime: Option<Timestamp>,
    attendees: Option<seq<string>>,
    title: Option<string>,
    description: Option<string>)

  /** `MeetingRequest(duration_minutes=…)`: only the duration is required. */
  function NewMeetingRequest(durationMinutes: int): (r: MeetingRequest)
    ensures r.durationMinutes == durationMinutes
    ensures r.preferredDate.None? && r.preferredTimeRange.None? && r.specificTime.None?
    ensures r.attendees.None? && r.title.None? && r.description.None?
  {
    MeetingRequest(durationMinutes, None, None, None, None, None, None)
  }

  /** The sparse field mapping an extraction returns: a field is present
      exactly when it is `Some`. */
  datatype ExtractedInfo = ExtractedInfo(
    durationMinutes: Option<int>,
    preferredDate: Option<Timestamp>,
    preferredTimeRange: Option<string>,
    specificTime: Option<Timestamp>,
    title: Option<string>,
    description: Option<string>,
    attendees: Option<seq<string>>)

  /** The empty mapping `{}`. */
  const NoExtractedInfo: ExtractedInfo :=
    ExtractedInfo(None, None, None, None, None, None, None)

  /** One entry of a session's conversation history. */
  datatype HistoryEntry = HistoryEntry(role: string, content: string, timestamp: Timestamp)

  /** Working hours and days used to generate candidate slots. */
  datatype CalendarConfig = CalendarConfig(
    timezone: string,
    workingHoursStart: int,
    workingHoursEnd: int,
    workingDays: seq<int>)

  /** `CalendarConfig()`: 9 to 17, Monday to Friday, UTC. */
  const DefaultCalendarConfig: CalendarConfig := CalendarConfig("UTC", 9, 17, [0, 1, 2, 3, 4])

  /** The reply of one turn as the transport sends it (the audio part is
      not modelled). */
  datatype MessageResponse = MessageResponse(
    response: string,
    conversationState: ConversationState,
    suggestedActions: Option<seq<string>>,
    requiresClarification: bool)

  /** The per-session dialogue record, updated in place by the engine. */
  class ConversationContext {
    const sessionId: string
    var state: ConversationState
    var meetingRequest: Option<MeetingRequest>
    var conversationHistory: seq<HistoryEntry>
    var currentAvailableSlots: seq<TimeSlot>
    var lastUserInput: Option<string>
    var clarificationNeeded: Option<string>

    /** `ConversationContext(session_id=…, state=…)` with the declared defaults. */
    constructor (sessionId: string, state: ConversationState)
      ensures this.sessionId == sessionId && this.state == state
      ensures meetingRequest.None? && conversationHistory == [] && currentAvailableSlots == []
      ensures lastUserInput.None? && clarificationNeeded.None?
    {
      this.sessionId := sessionId;
      this.state := state;
      meetingRequest := None;
      conversationHistory := [];
      currentAvailableSlots := [];
      lastUserInput := None;
      clarificationNeeded := None;
    }
  }
}
