# Meeting agent: the scheduling core in Dafny

The meeting agent is a chatbot that books a calendar meeting through a
conversation. Each session has a `ConversationContext`. The context holds:

- a dialogue state;
- the `MeetingRequest` gathered so far;
- the history of messages;
- the slots offered last;
- the last user input.

Every user message runs one turn. The language model replies and extracts
fields, and the engine merges those fields into the request. Then the
handler of the current state decides the reply and the next state. Along
the way the handlers may:

- ask the time parser for a time;
- ask the calendar service for free half-hour slots in the coming week;
- read the user's choice among the offered options;
- create the event.

This project models that core:

| file | module | models |
|---|---|---|
| `models.dfy` | `Models` | the shared records and the state enum, with their defaults |
| `clock.dfy` | `Clock` | times as whole minutes in one zone; hour, minute and weekday; the `strftime` renderings |
| `text.dfy`, `seqs.dfy`, `wrappers.dfy` | `Text`, `Seqs`, `Wrappers` | the string, list and optional-value behaviour the services rely on |
| `time_parsing.dfy` | `TimeParsing` | the natural-language time parser |
| `calendar.dfy` | `Calendar` | the calendar service's own logic |
| `llm.dfy` | `Llm` | the decision tables of the language-model layer |
| `engine.dfy` | `Engine` | the state handlers and one turn, as functions |
| `sessions.dfy` | `Sessions` | the engine object, its table of contexts, and `process_message` |

More detail on what each part covers:

- **Time parser.** It reads clock times, keyword dates, day periods,
  relative offsets, "before"/"after" anchors and event mentions. The
  patterns follow the service's regular expressions, including their
  backtracking. One time is then chosen by a fixed priority.
- **Calendar service.** It steps a week in 30-minute candidates, keeps
  working-hour starts and checks each one against the busy events. It
  also searches events by title and builds a new event.
- **Language-model layer.** The next-state table, the clarification test,
  the ten-entry history window, the canned suggestions, and the results
  returned when a model call fails.
- **Engine.** Each handler is a function of the turn's inputs, and
  `TurnStep` is one whole turn. These functions specify the methods of
  `Sessions.ConversationEngine`. Those methods update the context in place,
  as the engine does. `process_message` is split in two: `ProcessMessage`
  looks the session up in the table, and `RecordMessage` updates the
  context it finds.

The services the engine calls become inputs. The `Engine.Oracles` record
gathers them for one turn:

- the chat reply;
- the extraction;
- the date the fuzzy date parser finds;
- the calendar's busy list for the searched week;
- the id the calendar gives a new event.

`None` stands for a failed call. An exception nobody catches becomes
`Outcome.Raised`. The clock of a turn is a parameter `now`. The parser's
own clock is read once, when the engine builds the parser, so it is the
engine's constant `parserNow`.

The engine hands the context's current slots to the time parser as the
events to compare against (services/conversation_engine.py:207-210). The
parser reads each event's `title` (services/time_parsing_service.py:197, 216),
and a `TimeSlot` has no title. The model keeps both facts:

- **The parser on its own** (`TimeParsing.ParsedExpression`) works on
  titled calendar events, and every parser property is stated over them.
- **The call as the engine makes it** (`Engine.TimeParse`) raises
  `AttributeError` as soon as there are stored slots. A clock-time error
  comes first, because the clock-time step runs before the event lookup.

Slots stay in the context after a finished or failed conversation. So a
session that booked a meeting gets stuck: after the restart, every
time-preference message raises. `Sessions.BookedSessionBlocks` proves this.

## Model

| member | source | states |
|---|---|---|
| Models.ParseState | models/chatbot_models.py:6-14 | A state found from a string carries exactly that string as its value. |
| Models.StateValueRoundTrip | models/chatbot_models.py:6-14 | Each of the eight states is recovered from its string value, so the eight values are pairwise distinct. |
| Models.NewTimeSlot | models/chatbot_models.py:37-41 | A new slot is available, has no conflict reason, and has the given start and end. |
| Models.NewMeetingRequest | models/chatbot_models.py:43-50 | Only the duration is required; date, period, time, attendees, title and description are absent. |
| Models.ConversationContext.constructor | models/chatbot_models.py:52-59 | A new context has the given id and state, no request, empty history and slot list, and no last input or clarification. |
| Calendar.DefaultWorkingWeek | models/chatbot_models.py:66-70 | With the default configuration, a time is a working hour exactly when it falls Monday to Friday, from 09:00 up to but not including 17:00. |
| Clock.AtFields | services/time_parsing_service.py:104-106 | Putting a clock time on a day keeps that day and its weekday, and the hour and minute read back unchanged. |
| Clock.ShiftDays | services/time_parsing_service.py:135-137 | Moving by k whole days keeps the clock time, moves midnight by k days and turns the weekday by k modulo 7. |
| TimeParsing.LookupRange | services/time_parsing_service.py:14-19 | A period found by name is the table entry with that name; none is found exactly when no entry has the name. |
| TimeParsing.To24HourInverts | services/time_parsing_service.py:98-102 | For hours 1 to 12 the converted hour is at most 23 and is PM exactly when it is 12 or more. Converting a time's 12-hour reading back gives its 24-hour hour. |
| TimeParsing.ExtractSpecificTime | services/time_parsing_service.py:86-120 | A found time is on the parser's date with an hour from 0 to 23. The call raises exactly when the 12-hour pattern matches and the converted hour exceeds 23 or the minute exceeds 59. When the 12-hour pattern matches and the call does not raise, the result is the converted hour and the matched minute on the parser's date. Without a 12-hour match, a time is found exactly when the 24-hour pattern matches with hour at most 23 and minute at most 59, and it is that hour and minute on the parser's date. |
| TimeParsing.ClockTextParsesBack | services/time_parsing_service.py:89-106 | The engine's `%I:%M %p` rendering of any time parses back to that time of day on the parser's date. |
| TimeParsing.ThirteenPmRaises | services/time_parsing_service.py:93-106 | "13 PM" passes the pattern, and the call raises. |
| TimeParsing.TwoPmParses | services/time_parsing_service.py:89-106 | "2 PM" is 14:00 on the parser's date. |
| TimeParsing.NineThirtyAmParses | services/time_parsing_service.py:89-106 | "9:30 am" is 09:30 on the parser's date. |
| TimeParsing.FourteenThirtyParses | services/time_parsing_service.py:89-118 | "14:30" does not match the 12-hour pattern; the 24-hour pattern reads it as 14:30 on the parser's date. |
| TimeParsing.NextWeekdayAhead | services/time_parsing_service.py:226-231 | The next given weekday is 1 to 7 days ahead, is that weekday, and is a week ahead when today is that weekday. |
| TimeParsing.ExtractDateReference | services/time_parsing_service.py:122-151 | The fuzzy parser's date wins when there is one. Otherwise the result is the first keyword of the table found as a whole phrase in the text, on its day; none is found exactly when no keyword occurs. |
| TimeParsing.KeywordDateAtNine | services/time_parsing_service.py:147-149 | A keyword date is at 09:00 on its day. |
| TimeParsing.ExtractTimeRange | services/time_parsing_service.py:153-162 | The result is the first period name, in table order, that is a substring of the lower-cased text; there is none exactly when no name occurs. |
| TimeParsing.ExtractRelativeTime | services/time_parsing_service.py:164-176 | The first pattern in table order that matches the lower-cased text decides the offset; there is none exactly when no pattern matches. The offset is not bounded (see Left out). |
| TimeParsing.RelativeOffsets | services/time_parsing_service.py:22-29 | An offset is 1, 7 or 30 days, or N, 7N or 30N days for the first "in N days/weeks/months" match. |
| TimeParsing.ExtractDeadlineReference | services/time_parsing_service.py:178-205 | With a "before" or "after" anchor, the first event whose title contains a word of the anchor text decides. "before" gives an hour before its start; otherwise the result is an hour after its end. There is no result when no event matches or there is no anchor. |
| TimeParsing.ExtractContextEvent | services/time_parsing_service.py:207-224 | The result is the first event with at least two title words among the words of the text; there is none exactly when no event has two. |
| TimeParsing.ParseTimeExpression | services/time_parsing_service.py:31-84 | Filling the result signal by signal gives `ParsedExpression`. It raises when the clock-time step raises. Otherwise it records each extractor's signal (a zero offset is not recorded), and each present signal adds its weight to the confidence. |
| TimeParsing.RecordSignals | services/time_parsing_service.py:38-84 | Recording the six signals one after the other builds the expression whose confidence is the sum of the present signals' weights: 4, 3, 2, 3, 4 and 4 tenths. |
| TimeParsing.ConfidenceIsSignalSum | services/time_parsing_service.py:38-84 | Confidence lies between 0 and 2.0, and is zero exactly when no signal was found. |
| TimeParsing.ResolveIsFirstCandidate | services/time_parsing_service.py:233-265 | Resolution returns the first present candidate in the order clock time, deadline, event (an hour before its start), date (at a period's middle hour), offset from now. |
| TimeParsing.RangeAloneNeverResolves | services/time_parsing_service.py:253-265 | A day period with no date, clock time, anchor, event or non-zero offset resolves to nothing. |
| TimeParsing.MidpointHour | services/time_parsing_service.py:253-259 | A date with a known period resolves on that date, at minute 0 of the floor of the mean of the period's bounds; for night this is 14:00. |
| TimeParsing.ResolvedHasConfidence | services/time_parsing_service.py:233-265 | Whenever a parsed text resolves, its confidence is at least 0.3. |
| TimeParsing.DeadlineBeatsDateAndOffset | services/time_parsing_service.py:240-246 | A text with an anchor that matches an event and no clock time resolves to the anchor, whatever date or offset it also holds. |
| TimeParsing.ClockTextResolves | services/time_parsing_service.py:240-243 | A slot's displayed clock time, parsed and resolved, is that time of day on the parser's date, whatever events or fuzzy date are given. |
| TimeParsing.AlternativeTimesSpec | services/time_parsing_service.py:267-310 | There are at most five alternatives. Each is in the future, at an hour from 6 to 22, on a weekday. They keep the order in which the candidates were tried: +1, +2, +3, -1, -2 and -3 hours, then +1 day, then +1 week. There are five when at least five candidates are valid, and as many as are valid otherwise. Every valid candidate with fewer than five valid candidates before it is returned. |
| TimeParsing.SuggestAlternatives | services/time_parsing_service.py:267-292 | The appending loop returns exactly `AlternativeTimes`, the valid candidates in trial order, capped at five. |
| Calendar.CheckSlotAvailability | services/calendar_service.py:115-134 | A slot is free exactly when no event's half-open interval overlaps it, and then has no reason. Otherwise the reason names the first overlapping event's summary, or "Unknown event". |
| Calendar.GetAvailableSlots | services/calendar_service.py:46-99 | The stepping loop returns `SlotsFrom`, one slot per working-hour candidate in order. A failed listing returns no slots. |
| Calendar.SlotsWellFormed | services/calendar_service.py:72-93 | Every emitted slot: starts inside the window on the 30-minute grid, at a working hour; lasts exactly the duration, even past the window; is available exactly when no event overlaps it; has a reason exactly when it is not available. |
| Calendar.SlotsIncreasing | services/calendar_service.py:72-93 | Emitted slots have strictly increasing starts. |
| Calendar.SlotsComplete | services/calendar_service.py:72-93 | Every grid point inside the window that is a working hour starts an emitted slot. |
| Calendar.FindEventsByTitleSpec | services/calendar_service.py:227-230 | The result keeps the listed events in order. It holds every event whose lower-cased title contains the lower-cased query, and no other, each as many times as it is listed. |
| Calendar.DefaultDescriptionNamesDuration | services/calendar_service.py:142-147 | With no description, the event's description is the duration in digits followed by "-minute meeting", and the event ends the duration after its start. |
| Calendar.CreateEvent | services/calendar_service.py:136-177 | A request without a chosen time raises. A failed insert gives no event. Otherwise the event has the returned id and the title, starts at the chosen time, ends the duration later, and carries the request's description and attendees. |
| Llm.NextStateAdvances | services/llm_service.py:148-182 | The table never goes backwards along the flow and never enters the error state. It advances at most two steps, and two only from the initial state with a duration. Completed and error stay put. |
| Llm.ClarificationStalls | services/llm_service.py:148-199 | Whenever clarification is needed, the table keeps the current state. |
| Llm.SpecificTimeAloneStalls | services/llm_service.py:167-171 | While the time preference is collected, a specific time alone keeps the state without asking for clarification: the converse of `ClarificationStalls` fails. |
| Llm.BuildConversationHistory | services/llm_service.py:88-98 | The loop returns `HistoryWindow`: the user and assistant entries among the last ten, in order. |
| Llm.HistoryWindowBounds | services/llm_service.py:88-98 | The window has at most ten messages. Each has role user or assistant and comes from one of the last ten entries, with that entry's role and content. |
| Llm.GenerateAlternativeSuggestions | services/llm_service.py:201-229 | The loop over the conflict reasons returns `AlternativeSuggestions`. |
| Llm.AlternativeSuggestionsShape | services/llm_service.py:201-229 | There are always three suggestions. Each period's hint is among them exactly when some conflict reason mentions that period. The hints come first, in morning, afternoon, evening order, each at the position given by the mentioned periods before it. The day suggestions fill the remaining places in their own order, so with no period mentioned the result is exactly the three day suggestions. |
| Llm.ProcessConversation | services/llm_service.py:20-58 | A failed chat call gives the error state, clarification and no extracted fields. Otherwise the reply is relayed and the extracted fields are those of the extraction, or none when it failed. The next state and clarification follow the two tables. |
| Llm.FailedExtractionAsksDuration | services/llm_service.py:134-146 | With a failed extraction, the first two states are sent to the duration question; only the duration state asks for clarification. |
| Engine.MergeLaws | services/conversation_engine.py:135-157 | Merging the empty extraction changes nothing. Merging the same extraction twice is merging it once. Two merges equal one merge of the later extraction laid over the earlier, key by key. |
| Engine.MergedRequest | services/conversation_engine.py:104-107 | An extracted duration overwrites. Without a stored request and with no extracted duration, the duration is 30. The specific time is kept unless one is extracted. |
| Engine.DurationGate | services/conversation_engine.py:159-197 | The initial and duration handlers relay the model's reply. They move on to the time preference exactly when a request with a non-zero duration exists, and ask for clarification exactly when they stay. |
| Engine.FormatSlotOptions | services/conversation_engine.py:338-344 | The loop returns `SlotOptionsText`, the numbered option lines joined by line breaks. |
| Engine.OffersTextLines | services/conversation_engine.py:258-268 | Read line by line, an offer is the header, then one "Option i" line per shown slot in order, then the question. |
| Engine.ParseSlotSelection | services/conversation_engine.py:346-363 | A selected slot is always one of the available slots. An option number from 1 to the number of slots picks that slot. Otherwise a slot is selected exactly when the lower-cased clock time of some slot occurs in the lower-cased input, and it is the first such slot. |
| Engine.SuggestedOptionSelects | services/conversation_engine.py:346-355 | Typing back a suggested action "Option i", for any i up to the number of stored slots, selects slot i. |
| Engine.ClockTextSelects | services/conversation_engine.py:357-361 | Typing a slot's clock time selects a slot with that clock time, namely the first one: the slot itself or an earlier one at the same time of day. |
| Engine.SuggestAlternativesText | services/conversation_engine.py:365-375 | The text is the first two canned suggestions joined by a space. |
| Engine.TimeParse | services/conversation_engine.py:207-210 | With no stored slots, the parser's result on the last input. With stored slots, the clock-time error if there is one, else the missing-title `AttributeError`. It succeeds exactly when the clock-time step does and no slots are stored, leaving aside the datetime range (see Left out). |
| Engine.TimePreferenceStep | services/conversation_engine.py:199-227 | The time-preference handler relays the reply and keeps the duration. It moves to the availability check exactly when it needs no clarification, and otherwise stays. |
| Engine.AvailabilityStep | services/conversation_engine.py:229-276 | Without a request, the handler goes back to the initial state and keeps the slots. Otherwise it offers slots (no clarification) or goes back to the time preference (clarification). |
| Engine.ConfirmationStep | services/conversation_engine.py:278-303 | Scheduling is reached exactly when the slot parser selects a slot, and exactly when no clarification is needed. The specific time then becomes the selected slot's start, and the reply reads that start and the duration back. Otherwise the request is unchanged, the state stays, and the choice is reported as not understood. |
| Engine.SchedulingReply | services/conversation_engine.py:305-336 | Completed exactly when there is a chosen time and the insert succeeds, announcing that time. Without a chosen time it returns to the time preference; a failed insert is the error state. Clarification is asked unless completed. |
| Engine.DurationTransition | services/conversation_engine.py:104-114 | In the first two states a turn keeps the slots and the merged request and relays the reply. It moves on to the time preference exactly when the merged duration is non-zero, and asks again otherwise. |
| Engine.TimePreferenceTransition | services/conversation_engine.py:116-117 | Collecting the time preference, a turn raises exactly when the parser raises. Otherwise it keeps the slots. It moves on exactly when the parsed expression resolves, taking that time as the specific time; if not, it asks again with the request unchanged. |
| Engine.AvailabilityTransition | services/conversation_engine.py:119-120 | Checking availability, a turn keeps the merged request and stores the free slots found. It offers them exactly when there are some, and asks for another preference otherwise. |
| Engine.ConfirmationTransition | services/conversation_engine.py:122-123 | Confirming, a turn keeps the slots. It moves on to scheduling exactly when the slot parser selects a slot from the last input, taking that slot's start as the specific time of the merged request and reading it back. Otherwise it asks again with the merged request unchanged. |
| Engine.SchedulingTransition | services/conversation_engine.py:125-126 | Scheduling, a turn completes exactly when the merged request has a time and the insert succeeds. It returns to the time preference exactly when there is no time, and otherwise ends in the error state. |
| Engine.FinishedConversationRestarts | services/conversation_engine.py:128-133 | After completion or an error, a turn answers that it is not sure how to help. It goes back to the initial state with clarification and keeps the slots. |
| Engine.TurnRaisesOnlyOnParseError | services/conversation_engine.py:90-133 | A turn raises exactly when it collects the time preference and the parser raises, leaving aside the datetime range (see Left out). |
| Engine.TurnWithoutClarificationFollowsFlow | services/conversation_engine.py:90-133 | A reply needing no clarification comes from a state that is neither completed nor error, and goes to that state's successor along the flow. |
| Engine.TurnWithoutClarificationAdvances | services/conversation_engine.py:90-133 | A reply needing no clarification moves strictly forward along the flow and never into the error state. |
| Engine.CompletedOnlyByBooking | services/conversation_engine.py:305-330 | A turn reaches completion exactly when it runs in the scheduling state, the merged request has a time and the calendar accepts the insert. |
| Engine.FirstTurnSkipsDurationQuestion | services/conversation_engine.py:98-111 | With no duration extracted on the first message, the model's table says to ask for the duration, but the engine moves on to the time preference without clarification, using the default 30 minutes. |
| Engine.ClockTimeAnswerFixesTime | services/conversation_engine.py:206-221 | With no stored slots, answering the time question with a displayed clock time fixes that time of day on the parser's date and moves on to the availability check. |
| Engine.AvailabilityKeepsFreeSlots | services/conversation_engine.py:243-256 | The stored slots are the available slots of the week from the chosen time (or an hour from now), in the search's order. Each is well formed and free, and none of the available ones is left out. |
| Engine.FreeSlotsOfTheWeek | services/conversation_engine.py:255-256 | Filtering the week's emitted slots keeps exactly the available ones, in order, each well formed. |
| Engine.AvailabilityOffersFirstThree | services/conversation_engine.py:258-276 | With free slots: the reply offers the first three, one line each, with one "Option i" action per offered slot. Without: it returns to the time preference with clarification and the two suggestions. |
| Engine.AvailabilityWithoutCalendar | services/conversation_engine.py:248-256 | A failed calendar listing leaves no stored slots. |
| Sessions.MessageHistoryGrows | services/conversation_engine.py:45-63 | A message sets the last input and keeps a request. The history keeps its old entries and gains the user entry, plus an assistant entry holding the response when the turn does not raise. The response reports the new state. A raising turn leaves the state and slots unchanged. |
| Sessions.OfferedOptionSchedules | services/conversation_engine.py:286-297 | Answering an offer with "Option i" moves to scheduling without clarification, books slot i's start and keeps the slots. |
| Sessions.RestartKeepsSlots | services/conversation_engine.py:128-133 | After completion or an error, the next message restarts in the initial state, but the last offer's slots stay. |
| Sessions.StoredSlotsBlockTimePreference | services/conversation_engine.py:207-210 | Collecting the time preference with stored slots, every message raises and leaves the state and slots as they were, so the session stays in that condition. |
| Sessions.KnownDurationMovesOn | services/conversation_engine.py:166-171 | In the first two states, a message that extracts no duration moves on to the time preference when the stored duration is non-zero, and keeps the slots. |
| Sessions.BookedSessionBlocks | services/conversation_engine.py:207-210 | After a completed booking with stored slots, two messages bring the session back to the time preference (neither giving a new duration), and the third message raises. |
| Sessions.ConversationEngine.constructor | services/conversation_engine.py:20-30 | A new engine has no contexts and the default calendar configuration. |
| Sessions.ConversationEngine.GetOrCreateContext | services/conversation_engine.py:81-88 | A known id returns its context with the table unchanged. An unknown id gets a fresh initial context filed under it, with no other id touched. |
| Sessions.ConversationEngine.GetConversationContext | services/conversation_engine.py:377-379 | Returns the stored context exactly when the id is known. |
| Sessions.ConversationEngine.ClearConversationContext | services/conversation_engine.py:381-386 | Returns true exactly when the id was known, and removes that id only. |
| Sessions.ConversationEngine.UpdateMeetingRequest | services/conversation_engine.py:135-157 | The present keys, applied one after the other, give `MergeExtracted` of the old request; nothing else in the context changes. |
| Sessions.ConversationEngine.HandleTimePreferenceCollection | services/conversation_engine.py:199-227 | The context is left as `TimePreferenceStep` says: unchanged when the parser raises; when it succeeds, only the request, to the step's request. |
| Sessions.ConversationEngine.HandleAvailabilityCheck | services/conversation_engine.py:229-276 | The reply and the new slots are those of `AvailabilityStep`; nothing else in the context changes. |
| Sessions.ConversationEngine.HandleSlotConfirmation | services/conversation_engine.py:278-303 | The reply and the new request are those of `ConfirmationStep`; nothing else in the context changes. |
| Sessions.ConversationEngine.ProcessConversationTurn | services/conversation_engine.py:90-133 | The reply, request and slots are those of `TurnStep`. A raising turn leaves only the merged request behind. |
| Sessions.ConversationEngine.RecordMessage | services/conversation_engine.py:45-79 | The response and the new context are those of `MessageStep`. |
| Sessions.ConversationEngine.ProcessMessage | services/conversation_engine.py:32-79 | Only this session's context changes, and the table gains at most this session. The response and the session's new context are those of `MessageStep` on its old (or fresh) context. |

## Left out

- Speech input and spoken replies (`speech_to_text`, `text_to_speech`, the voice configuration, the audio part of `MessageResponse`, and `MessageRequest`'s audio fields): the turn takes the transcribed text.
- The OpenAI calls: the chat reply and the extraction are inputs. The system prompt, the extraction prompt and `extract_time_expressions` are not part of this model.
- The dateutil fuzzy parse is an input (`fuzzyDate`).
- Google Calendar authentication, the event listing call and `get_events_in_range` are not modelled: the busy events, the listed events and the inserted event's id are inputs, with `None` for an API error.
- Time zones: times are whole minutes in one fixed zone. pytz conversion, the naive/aware distinction of `datetime`, and seconds and microseconds are not modelled. In particular, the source compares the naive default start `datetime.now() + timedelta(hours=1)` (services/conversation_engine.py:244) with event times that carry an offset (services/calendar_service.py:123-131), which raises `TypeError` that only an `HttpError` handler surrounds (services/calendar_service.py:97); the model compares them as plain minutes.
- Floating-point confidence is kept in integer tenths.
- Sessions.ConversationEngine.ProcessMessage: one clock reading `now` serves both history timestamps and the availability window, where the source reads the clock separately each time.
- The parser's clock is read once, when the engine is built (`parserNow`), as the engine builds its parser once.
- The `datetime.fromisoformat` conversions of extracted dates and of calendar event times: the extraction and the busy list already carry times. The source raises `ValueError` there on text that is not ISO 8601 (services/conversation_engine.py:142 and 148, services/calendar_service.py:123-128); the model has no such text and does not raise.
- The `async` handlers never run concurrently, so they are sequential methods here.
- The `strftime` renderings use the Gregorian month and day computed from the day count; locale is fixed to English.
- TimeParse: the model's timestamps are unbounded minutes, while Python's `datetime` covers years 1 to 9999 and `timedelta` at most 999999999 days. Where the source raises `OverflowError` while parsing, the model succeeds: "in 1000000000 days" overflows `timedelta(days=…)` (services/time_parsing_service.py:174), and on 31 December 9999 the keyword table's next-day date (services/time_parsing_service.py:136), built on every call without a fuzzy date, overflows whatever the text.
- ExtractRelativeTime: the offset is any number of days; the source raises `OverflowError` beyond 999999999 days (services/time_parsing_service.py:174).
- ResolveTimeExpression: `self.now + offset` (services/time_parsing_service.py:263) and the hour before an event (line 250) raise `OverflowError` outside years 1 to 9999, for example for "in 4000000 days"; the model returns the unbounded timestamp.
- AvailabilityStep: the end of the week searched, `start_date + timedelta(days=7)` (services/conversation_engine.py:246), raises `OverflowError` for a start in the last week of year 9999; the model computes it. It also never raises where the source does on a non-ISO event time (`ValueError`, services/calendar_service.py:123-128) or on comparing the naive default start with an offset-carrying event time (`TypeError`, services/calendar_service.py:131); see the two lines above.
- TurnRaisesOnlyOnParseError: a turn raises here only through the time parser. The source also raises, uncaught: `OverflowError` on the date arithmetic of the four lines above; `ValueError` in every state, before dispatch, when an extracted `preferred_date` or `specific_time` is not ISO text, such as `{"preferred_date": "next Tuesday"}` (services/conversation_engine.py:142, 148), or is JSON `null` (`TypeError`); and, while checking availability, `ValueError` on a malformed event time and `TypeError` on the naive/aware comparison (services/calendar_service.py:123-131). None of these is among the raising turns here.
- ExtractSpecificTime, ExtractDateReference, ExtractTimeRange, ExtractRelativeTime, ExtractDeadlineReference, ExtractContextEvent, FindEventsByTitle and ParseSlotSelection match text as ASCII: digits, spaces, word characters for `\b`, and lower-casing cover ASCII only. Python's `\d`, `\s`, `\b`, `lower()` and `re.IGNORECASE` are Unicode-aware. So these members differ on non-ASCII input: "٢ PM" is 14:00 in the source and no time here, and "ébefore lunch" has no word boundary before "before" in the source but has one here.
- MergeExtracted: a key the extraction carries with JSON `null` is treated like an absent key, and the field is kept. The source tests `"key" in extracted_info` (services/conversation_engine.py:138-157), so it stores `None` for `duration_minutes`, `preferred_time_range`, `title`, `description` or `attendees`, and raises `TypeError` from `fromisoformat(None)` for `preferred_date` and `specific_time`. For example, a first message extracted as `{"duration_minutes": null}` goes to the duration question in the source (services/conversation_engine.py:166), but keeps the default 30 minutes and moves on to the time preference here. Sessions.ConversationEngine.UpdateMeetingRequest, which equals MergeExtracted, differs in the same way.
