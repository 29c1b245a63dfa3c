/** The calendar service's own logic: stepping a window in half-hour
    steps, keeping working-hour starts, checking each candidate against the
    busy events, searching events by title and building a new event. The
    calendar API itself is outside the model: the events it lists and the
    id it gives a new event are inputs. */
module Calendar {
  import opened Wrappers
  import opened Text
  import opened Clock
  import opened Seqs
  import opened Models

  /** Candidate slot starts are this many minutes apart. */
  const SlotStep: int := 30

  /** An item of the event list the calendar returns for a window: its
      start and end, and its summary when it has one. */
  datatype BusyEvent = BusyEvent(start: Timestamp, end: Timestamp, summary: Option<string>)

  /** The half-open intervals `[start, end)` and `[ev.start, ev.end)` meet. */
  predicate Overlaps(start: Timestamp, end: Timestamp, ev: BusyEvent) {
    start < ev.end && end > ev.start
  }

  function ConflictReason(ev: BusyEvent): string {
    "Conflicts with: " + ev.summary.GetOr("Unknown event")
  }

  /** `_check_slot_availability`: the first overlapping event, if any,
      makes the slot unavailable and names the reason. */
  function CheckSlotAvailability(start: Timestamp, end: Timestamp, events: seq<BusyEvent>): (r: (bool, Option<string>))
    ensures r.0 <==> forall k :: 0 <= k < |events| ==> !Overlaps(start, end, events[k])
    ensures r.0 ==> r.1.None?
    ensures !r.0 ==>
      exists k :: 0 <= k < |events| && Overlaps(start, end, events[k])
        && (forall j :: 0 <= j < k ==> !Overlaps(start, end, events[j]))
        && r.1 == Some(ConflictReason(events[k]))
    decreases |events|
  {
    if |events| == 0 then (true, None)
    else if Overlaps(start, end, events[0]) then (false, Some(ConflictReason(events[0])))
    else
      var rest := CheckSlotAvailability(start, end, events[1..]);
      assert forall k :: 1 <= k < |events| ==> events[k] == events[1..][k - 1];
      rest
  }

  /** `_is_working_hour`, in the single zone of the model. */
  predicate IsWorkingHour(t: Timestamp, config: CalendarConfig) {
    Weekday(t) in config.workingDays && config.workingHoursStart <= Hour(t) < config.workingHoursEnd
  }

  /** With the default configuration the working hours are 09:00 to 17:00,
      Monday to Friday. */
  lemma DefaultWorkingWeek(t: Timestamp)
    ensures IsWorkingHour(t, DefaultCalendarConfig) <==> Weekday(t) < 5 && 9 <= Hour(t) < 17
  {
    assert DefaultCalendarConfig.workingDays == [0, 1, 2, 3, 4];
    if Weekday(t) < 5 {
      assert DefaultCalendarConfig.workingDays[Weekday(t)] == Weekday(t);
    }
  }

  /** The slot built for a candidate start. */
  function MakeSlot(start: Timestamp, durationMinutes: int, events: seq<BusyEvent>): TimeSlot {
    var availability := CheckSlotAvailability(start, start + durationMinutes, events);
    TimeSlot(start, start + durationMinutes, availability.0, availability.1)
  }

  /** The slots emitted from candidate start `current` to the end of the
      window: one per working-hour start, in order. */
  function SlotsFrom(current: Timestamp, endDate: Timestamp, durationMinutes: int,
                     config: CalendarConfig, events: seq<BusyEvent>): seq<TimeSlot>
    decreases endDate - current
  {
    if current >= endDate then []
    else
      (if IsWorkingHour(current, config) then [MakeSlot(current, durationMinutes, events)] else [])
      + SlotsFrom(current + SlotStep, endDate, durationMinutes, config, events)
  }

  /** One step of the search: the candidate at `current`, if it is a
      working hour, moves from the slots still to come to those found. */
  lemma SearchStep(found: seq<TimeSlot>, current: Timestamp, endDate: Timestamp, durationMinutes: int,
                   config: CalendarConfig, events: seq<BusyEvent>)
    requires current < endDate
    ensures IsWorkingHour(current, config) ==>
      (found + [MakeSlot(current, durationMinutes, events)])
      + SlotsFrom(current + SlotStep, endDate, durationMinutes, config, events)
      == found + SlotsFrom(current, endDate, durationMinutes, config, events)
    ensures !IsWorkingHour(current, config) ==>
      found + SlotsFrom(current + SlotStep, endDate, durationMinutes, config, events)
      == found + SlotsFrom(current, endDate, durationMinutes, config, events)
  {
  }

  /** Past the end of the window nothing is left to search. */
  lemma SearchDone(found: seq<TimeSlot>, current: Timestamp, endDate: Timestamp, durationMinutes: int,
                   config: CalendarConfig, events: seq<BusyEvent>)
    requires current >= endDate
    ensures found + SlotsFrom(current, endDate, durationMinutes, config, events) == found
  {
  }

  /** `get_available_slots`. `busy` is what the calendar lists for the
      window; `None` stands for the API error, which yields no slots. */
  method GetAvailableSlots(startDate: Timestamp, endDate: Timestamp, durationMinutes: int,
                           config: CalendarConfig, busy: Option<seq<BusyEvent>>)
    returns (availableSlots: seq<TimeSlot>)
    ensures busy.None? ==> availableSlots == []
    ensures busy.Some? ==> availableSlots == SlotsFrom(startDate, endDate, durationMinutes, config, busy.value)
  {
    if busy.None? {
      return [];
    }
    var events := busy.value;
    availableSlots := [];
    var currentTime := startDate;
    while currentTime < endDate
      invariant availableSlots + SlotsFrom(currentTime, endDate, durationMinutes, config, events)
             == SlotsFrom(startDate, endDate, durationMinutes, config, events)
      decreases endDate - currentTime
    {
      SearchStep(availableSlots, currentTime, endDate, durationMinutes, config, events);
      if IsWorkingHour(currentTime, config) {
        var slotEnd := currentTime + durationMinutes;
        var availability := CheckSlotAvailability(currentTime, slotEnd, events);
        var slot := TimeSlot(currentTime, slotEnd, availability.0, availability.1);
        assert slot == MakeSlot(currentTime, durationMinutes, events);
        availableSlots := availableSlots + [slot];
      }
      currentTime := currentTime + SlotStep;
    }
    SearchDone(availableSlots, currentTime, endDate, durationMinutes, config, events);
  }

  /** The `k`-th candidate start of a window starting at `start`. */
  function GridPoint(start: Timestamp, k: nat): Timestamp {
    start + SlotStep * k
  }

  /** A slot emitted for the window from `current` to `endDate`: on the
      half-hour grid inside the window, at a working hour, lasting the
      requested duration (even past the window or the working day), and
      available exactly when no event overlaps it, a conflict reason being
      given exactly when it is not. */
  predicate WellFormedSlot(slot: TimeSlot, current: Timestamp, endDate: Timestamp, durationMinutes: int,
                           config: CalendarConfig, events: seq<BusyEvent>)
  {
    current <= slot.startTime < endDate
    && (slot.startTime - current) % SlotStep == 0
    && IsWorkingHour(slot.startTime, config)
    && slot.endTime == slot.startTime + durationMinutes
    && (slot.isAvailable <==> forall k :: 0 <= k < |events| ==> !Overlaps(slot.startTime, slot.endTime, events[k]))
    && (slot.isAvailable <==> slot.conflictReason.None?)
  }

  /** The slot built at a working-hour start inside the window is well formed. */
  lemma MakeSlotWellFormed(current: Timestamp, endDate: Timestamp, durationMinutes: int,
                           config: CalendarConfig, events: seq<BusyEvent>)
    requires current < endDate && IsWorkingHour(current, config)
    ensures WellFormedSlot(MakeSlot(current, durationMinutes, events), current, endDate, durationMinutes, config, events)
  {
  }

  /** A slot well formed for the window from the next grid point is well
      formed for the window from `current`. */
  lemma WellFormedFromEarlier(slot: TimeSlot, current: Timestamp, endDate: Timestamp, durationMinutes: int,
                              config: CalendarConfig, events: seq<BusyEvent>)
    requires WellFormedSlot(slot, current + SlotStep, endDate, durationMinutes, config, events)
    ensures WellFormedSlot(slot, current, endDate, durationMinutes, config, events)
  {
    var d := slot.startTime - (current + SlotStep);
    assert slot.startTime - current == d + SlotStep;
  }

  lemma {:induction false} SlotsWellFormed(current: Timestamp, endDate: Timestamp, durationMinutes: int,
                                           config: CalendarConfig, events: seq<BusyEvent>)
    ensures forall i :: 0 <= i < |SlotsFrom(current, endDate, durationMinutes, config, events)| ==>
      WellFormedSlot(SlotsFrom(current, endDate, durationMinutes, config, events)[i],
                     current, endDate, durationMinutes, config, events)
    decreases endDate - current
  {
    if current < endDate {
      var head := if IsWorkingHour(current, config) then [MakeSlot(current, durationMinutes, events)] else [];
      var rest := SlotsFrom(current + SlotStep, endDate, durationMinutes, config, events);
      SlotsWellFormed(current + SlotStep, endDate, durationMinutes, config, events);
      var slots := SlotsFrom(current, endDate, durationMinutes, config, events);
      assert slots == head + rest;
      forall i | 0 <= i < |slots|
        ensures WellFormedSlot(slots[i], current, endDate, durationMinutes, config, events)
      {
        if i < |head| {
          MakeSlotWellFormed(current, endDate, durationMinutes, config, events);
        } else {
          assert slots[i] == rest[i - |head|];
          WellFormedFromEarlier(slots[i], current, endDate, durationMinutes, config, events);
        }
      }
    }
  }

  /** Every slot emitted from `current` on starts at `current` or later. */
  lemma {:induction false} SlotsStartFrom(current: Timestamp, endDate: Timestamp, durationMinutes: int,
                                          config: CalendarConfig, events: seq<BusyEvent>)
    ensures forall i :: 0 <= i < |SlotsFrom(current, endDate, durationMinutes, config, events)| ==>
      current <= SlotsFrom(current, endDate, durationMinutes, config, events)[i].startTime
    decreases endDate - current
  {
    if current < endDate {
      var head := if IsWorkingHour(current, config) then [MakeSlot(current, durationMinutes, events)] else [];
      var rest := SlotsFrom(current + SlotStep, endDate, durationMinutes, config, events);
      SlotsStartFrom(current + SlotStep, endDate, durationMinutes, config, events);
      var slots := SlotsFrom(current, endDate, durationMinutes, config, events);
      assert slots == head + rest;
      forall i | 0 <= i < |slots|
        ensures current <= slots[i].startTime
      {
        if i >= |head| {
          assert slots[i] == rest[i - |head|];
        }
      }
    }
  }

  /** The emitted slots have strictly increasing starts. */
  lemma {:induction false} SlotsIncreasing(current: Timestamp, endDate: Timestamp, durationMinutes: int,
                                           config: CalendarConfig, events: seq<BusyEvent>)
    ensures forall i, j :: 0 <= i < j < |SlotsFrom(current, endDate, durationMinutes, config, events)| ==>
      SlotsFrom(current, endDate, durationMinutes, config, events)[i].startTime
      < SlotsFrom(current, endDate, durationMinutes, config, events)[j].startTime
    decreases endDate - current
  {
    if current < endDate {
      var head := if IsWorkingHour(current, config) then [MakeSlot(current, durationMinutes, events)] else [];
      var rest := SlotsFrom(current + SlotStep, endDate, durationMinutes, config, events);
      SlotsIncreasing(current + SlotStep, endDate, durationMinutes, config, events);
      SlotsStartFrom(current + SlotStep, endDate, durationMinutes, config, events);
      var slots := SlotsFrom(current, endDate, durationMinutes, config, events);
      assert slots == head + rest;
      forall i, j | 0 <= i < j < |slots|
        ensures slots[i].startTime < slots[j].startTime
      {
        assert slots[j] == rest[j - |head|];
        if i < |head| {
          assert slots[i].startTime == current;
        } else {
          assert slots[i] == rest[i - |head|];
        }
      }
    }
  }

  /** No working-hour candidate is skipped: each grid point inside the
      window at a working hour starts an emitted slot. */
  lemma {:induction false} SlotsComplete(current: Timestamp, endDate: Timestamp, durationMinutes: int,
                                         config: CalendarConfig, events: seq<BusyEvent>, k: nat)
    requires GridPoint(current, k) < endDate && IsWorkingHour(GridPoint(current, k), config)
    ensures exists i ::
              0 <= i < |SlotsFrom(current, endDate, durationMinutes, config, events)|
              && SlotsFrom(current, endDate, durationMinutes, config, events)[i].startTime == GridPoint(current, k)
    decreases k
  {
    var head := if IsWorkingHour(current, config) then [MakeSlot(current, durationMinutes, events)] else [];
    var rest := SlotsFrom(current + SlotStep, endDate, durationMinutes, config, events);
    var slots := SlotsFrom(current, endDate, durationMinutes, config, events);
    assert current < endDate;
    assert slots == head + rest;
    if k == 0 {
      assert slots[0].startTime == GridPoint(current, k);
    } else {
      assert GridPoint(current + SlotStep, k - 1) == GridPoint(current, k);
      SlotsComplete(current + SlotStep, endDate, durationMinutes, config, events, k - 1);
      var i :| 0 <= i < |rest| && rest[i].startTime == GridPoint(current, k);
      assert slots[|head| + i] == rest[i];
      assert 0 <= |head| + i < |slots| && slots[|head| + i].startTime == GridPoint(current, k);
    }
  }

  /** The case-insensitive title test of `find_events_by_title`. */
  function TitleMatches(query: string): CalendarEvent -> bool {
    (e: CalendarEvent) => Contains(Lower(e.title), Lower(query))
  }

  /** `find_events_by_title`, over the events the calendar lists for the
      window (none when the listing fails). */
  function FindEventsByTitle(query: string, events: seq<CalendarEvent>): seq<CalendarEvent> {
    Filter(events, TitleMatches(query))
  }

  /** The result is the matching events in their listed order: a
      subsequence holding every event whose lower-cased title contains the
      lower-cased query, and no other. */
  lemma FindEventsByTitleSpec(query: string, events: seq<CalendarEvent>)
    ensures var found := FindEventsByTitle(query, events);
      IsSubsequence(found, events)
      && (forall k :: 0 <= k < |found| ==> Contains(Lower(found[k].title), Lower(query)))
      && (forall k :: 0 <= k < |events| && Contains(Lower(events[k].title), Lower(query)) ==> events[k] in found)
      && (forall e :: multiset(found)[e]
                      == if Contains(Lower(e.title), Lower(query)) then multiset(events)[e] else 0)
  {
    FilterSpec(events, TitleMatches(query));
    FilterMultiset(events, TitleMatches(query));
  }

  /** The request body sent to the calendar's insert call. */
  datatype EventBody = EventBody(
    summary: string,
    description: string,
    start: Timestamp,
    end: Timestamp,
    timeZone: string,
    attendees: Option<seq<string>>)

  const MinuteMeetingSuffix: string := "-minute meeting"

  /** The body for a request with a chosen time: the end is the start plus
      the duration, an empty or missing description becomes "<n>-minute
      meeting", and attendees go in only when there are some. */
  function EventBodyFor(request: MeetingRequest, title: string): EventBody
    requires request.specificTime.Some?
  {
    var start := request.specificTime.value;
    var description :=
      if request.description.Some? && request.description.value != "" then request.description.value
      else IntToString(request.durationMinutes) + MinuteMeetingSuffix;
    var attendees :=
      if request.attendees.Some? && request.attendees.value != [] then request.attendees else None;
    EventBody(title, description, start, start + request.durationMinutes, "UTC", attendees)
  }

  /** The default description names the duration: the text before the
      "-minute meeting" suffix reads back as the number of minutes. */
  lemma DefaultDescriptionNamesDuration(request: MeetingRequest, title: string)
    requires request.specificTime.Some? && request.durationMinutes >= 0
    requires request.description.None? || request.description.value == ""
    ensures var body := EventBodyFor(request, title);
      |body.description| > |MinuteMeetingSuffix|
      && body.description[|body.description| - |MinuteMeetingSuffix|..] == MinuteMeetingSuffix
      && AllDigits(body.description[..|body.description| - |MinuteMeetingSuffix|])
      && DigitsValue(body.description[..|body.description| - |MinuteMeetingSuffix|]) == request.durationMinutes
      && body.end - body.start == request.durationMinutes
  {
    var digits := NatToString(request.durationMinutes);
    NatToStringRoundTrip(request.durationMinutes);
    var body := EventBodyFor(request, title);
    assert body.description == digits + MinuteMeetingSuffix;
    assert body.description[..|digits|] == digits;
  }

  /** `create_event`. `insertedId` is the id the insert call returns, or
      `None` for the API error, which yields no event. A request without a
      chosen time raises, and that error is not caught. */
  function CreateEvent(request: MeetingRequest, title: string, insertedId: Option<string>): (r: Outcome<Option<CalendarEvent>>)
    ensures r.Raised? <==> request.specificTime.None?
    ensures r.Ok? ==> (r.value.None? <==> insertedId.None?)
    ensures r.Ok? && r.value.Some? ==>
      var e := r.value.value;
      e.id == insertedId && e.title == title
      && e.startTime == request.specificTime.value
      && e.endTime == e.startTime + request.durationMinutes
      && e.description == request.description && e.attendees == request.attendees
  {
    if request.specificTime.None? then Raised("ValueError: Specific time is required to create an event")
    else
      var body := EventBodyFor(request, title);
      match insertedId
      case None => Ok(None)
      case Some(id) => Ok(Some(CalendarEvent(Some(id), title, body.start, body.end, request.description, request.attendees)))
  }
}
