/** The natural-language time-expression resolver: clock times, keyword
    dates, day periods, relative offsets, "before"/"after" anchors and
    event mentions, each read off the text with the patterns the service
    uses, then one concrete time chosen by a fixed priority. The parser's
    `now` is captured when it is built, so it is a parameter here, as is the
    result of the general-purpose fuzzy date parser. */
module TimeParsing {
  import opened Wrappers
  import opened Text
  import opened Clock
  import opened Seqs
  import opened Models

  // ---------------------------------------------------------------------
  // Day periods

  datatype TimeRange = TimeRange(name: string, startHour: int, endHour: int)

  /** The named day periods, in the order the parser tries them. */
  const TimeRanges: seq<TimeRange> := [
    TimeRange("morning", 6, 12),
    TimeRange("afternoon", 12, 17),
    TimeRange("evening", 17, 22),
    TimeRange("night", 22, 6)
  ]

  /** `time_ranges.get(name)`. */
  function LookupRange(name: string): (r: Option<TimeRange>)
    ensures r.Some? ==> r.value in TimeRanges && r.value.name == name
    ensures r.None? ==> forall k :: 0 <= k < |TimeRanges| ==> TimeRanges[k].name != name
  {
    match FirstWhere(TimeRanges, (range: TimeRange) => range.name == name)
    case Some(k) => Some(TimeRanges[k])
    case None => None
  }

  // ---------------------------------------------------------------------
  // Clock times: `\b(\d{1,2}):?(\d{2})?\s*(AM|PM|am|pm)\b`, then
  // `\b(\d{1,2}):(\d{2})\b`. Each alternative of the patterns is tried in
  // the order the backtracking regex engine tries it.

  predicate DigitAt(s: string, i: int) {
    0 <= i < |s| && IsDigit(s[i])
  }

  /** Hour and minute digits read by the 12-hour pattern, and its period. */
  datatype ClockMatch = ClockMatch(hour: nat, minute: nat, pm: bool)

  /** `\s*(AM|PM|am|pm)\b` from `m`. Since the period starts with a letter,
      only the longest run of spaces can let it match. */
  function PeriodAt(s: string, m: nat): Option<bool>
    requires m <= |s|
  {
    var p := Span(s, m, IsSpace);
    if p + 2 <= |s| && IsBoundary(s, p + 2) then
      if s[p..p + 2] == "AM" || s[p..p + 2] == "am" then Some(false)
      else if s[p..p + 2] == "PM" || s[p..p + 2] == "pm" then Some(true)
      else None
    else None
  }

  /** `(\d{2})?` from `k`, then the period; the minute digits are tried first. */
  function MinuteThenPeriod(s: string, k: nat, hour: nat): Option<ClockMatch>
    requires k <= |s|
  {
    var withMinute := if DigitAt(s, k) && DigitAt(s, k + 1) then PeriodAt(s, k + 2) else None;
    if withMinute.Some? then Some(ClockMatch(hour, DigitsValue(s[k..k + 2]), withMinute.value))
    else match PeriodAt(s, k)
      case Some(pm) => Some(ClockMatch(hour, 0, pm))
      case None => None
  }

  /** `:?` at `j`, then the rest; the colon is taken first when present. */
  function ColonThenRest(s: string, j: nat, hour: nat): Option<ClockMatch>
    requires j <= |s|
  {
    var withColon := if j < |s| && s[j] == ':' then MinuteThenPeriod(s, j + 1, hour) else None;
    if withColon.Some? then withColon else MinuteThenPeriod(s, j, hour)
  }

  /** The 12-hour pattern anchored at `i`; two hour digits are tried first. */
  function TwelveHourAt(s: string, i: nat): Option<ClockMatch>
    requires i <= |s|
  {
    if !IsBoundary(s, i) || !DigitAt(s, i) then None
    else
      var twoDigits :=
        if DigitAt(s, i + 1) then ColonThenRest(s, i + 2, DigitsValue(s[i..i + 2])) else None;
      if twoDigits.Some? then twoDigits else ColonThenRest(s, i + 1, DigitsValue(s[i..i + 1]))
  }

  /** `re.search` of the 12-hour pattern from position `i`. */
  function FirstTwelveHour(s: string, i: nat): Option<ClockMatch>
    requires i <= |s|
    decreases |s| - i
  {
    if i == |s| then None
    else if TwelveHourAt(s, i).Some? then TwelveHourAt(s, i)
    else FirstTwelveHour(s, i + 1)
  }

  /** `:(\d{2})\b` after hour digits `s[i..j]`. */
  function ColonMinuteAt(s: string, i: nat, j: nat): Option<(nat, nat)>
    requires i <= j <= |s|
  {
    if j < |s| && s[j] == ':' && DigitAt(s, j + 1) && DigitAt(s, j + 2) && IsBoundary(s, j + 3)
    then Some((DigitsValue(s[i..j]), DigitsValue(s[j + 1..j + 3])))
    else None
  }

  /** The 24-hour pattern anchored at `i`. */
  function TwentyFourHourAt(s: string, i: nat): Option<(nat, nat)>
    requires i <= |s|
  {
    if !IsBoundary(s, i) || !DigitAt(s, i) then None
    else
      var twoDigits := if DigitAt(s, i + 1) then ColonMinuteAt(s, i, i + 2) else None;
      if twoDigits.Some? then twoDigits else ColonMinuteAt(s, i, i + 1)
  }

  function FirstTwentyFourHour(s: string, i: nat): Option<(nat, nat)>
    requires i <= |s|
    decreases |s| - i
  {
    if i == |s| then None
    else if TwentyFourHourAt(s, i).Some? then TwentyFourHourAt(s, i)
    else FirstTwentyFourHour(s, i + 1)
  }

  /** The 12-hour to 24-hour conversion: PM adds twelve except to 12, and
      12 AM is hour 0. No range check happens here. */
  function To24Hour(hour: nat, pm: bool): nat {
    if pm && hour != 12 then hour + 12
    else if !pm && hour == 12 then 0
    else hour
  }

  /** On the clock hours 1 to 12 the conversion is onto 0..23, and it
      inverts the `%I`/`%p` rendering of every time of day. */
  lemma To24HourInverts(t: Timestamp, hour: nat, pm: bool)
    ensures 1 <= hour <= 12 ==> To24Hour(hour, pm) <= 23 && (pm <==> To24Hour(hour, pm) >= 12)
    ensures To24Hour(Hour12(t), Period(t) == "PM") == Hour(t)
  {
  }

  /** `_extract_specific_time`: a clock time on today's date. A 12-hour
      match whose converted hour or minute is out of range raises, as
      `time(hour, minute)` does; the 24-hour form is checked first and
      ignored when out of range. */
  function ExtractSpecificTime(text: string, now: Timestamp): (r: Outcome<Option<Timestamp>>)
    ensures r.Ok? && r.value.Some? ==>
      DayStart(r.value.value) == DayStart(now) && 0 <= Hour(r.value.value) <= 23
    ensures r.Raised? <==>
      FirstTwelveHour(text, 0).Some? &&
      (To24Hour(FirstTwelveHour(text, 0).value.hour, FirstTwelveHour(text, 0).value.pm) > 23
       || FirstTwelveHour(text, 0).value.minute > 59)
    ensures FirstTwelveHour(text, 0).Some? && r.Ok? ==>
      r == Ok(Some(At(now, To24Hour(FirstTwelveHour(text, 0).value.hour, FirstTwelveHour(text, 0).value.pm),
                      FirstTwelveHour(text, 0).value.minute)))
    ensures FirstTwelveHour(text, 0).None? ==>
      r.Ok? && (r.value.Some? <==>
        (FirstTwentyFourHour(text, 0).Some? && FirstTwentyFourHour(text, 0).value.0 <= 23
         && FirstTwentyFourHour(text, 0).value.1 <= 59))
    ensures FirstTwelveHour(text, 0).None? && r.Ok? && r.value.Some? ==>
      r.value.value == At(now, FirstTwentyFourHour(text, 0).value.0, FirstTwentyFourHour(text, 0).value.1)
  {
    match FirstTwelveHour(text, 0)
    case Some(c) =>
      var hour := To24Hour(c.hour, c.pm);
      if hour > 23 then Raised("ValueError: hour must be in 0..23")
      else if c.minute > 59 then Raised("ValueError: minute must be in 0..59")
      else AtFields(now, hour, c.minute); Ok(Some(At(now, hour, c.minute)))
    case None =>
      match FirstTwentyFourHour(text, 0)
      case Some((hour, minute)) =>
        if hour <= 23 && minute <= 59 then AtFields(now, hour, minute); Ok(Some(At(now, hour, minute)))
        else Ok(None)
      case None => Ok(None)
  }

  /** The `%I:%M %p` rendering the engine shows for a slot reads back as
      the same time of day, on the parser's current date. */
  lemma ClockTextParsesBack(t: Timestamp, now: Timestamp)
    ensures ExtractSpecificTime(ClockText(t), now) == Ok(Some(At(now, Hour(t), Minute(t))))
  {
    var s := ClockText(t);
    var h12 := Hour12(t);
    Pad2RoundTrip(h12);
    Pad2RoundTrip(Minute(t));
    assert |s| == 8;
    assert s[0..2] == Pad2(h12) && s[2] == ':' && s[3..5] == Pad2(Minute(t)) && s[5] == ' ';
    assert s[6..8] == Period(t);
    assert IsSpace(s[5]) && !IsSpace(s[6]);
    assert Span(s, 6, IsSpace) == 6;
    assert Span(s, 5, IsSpace) == 6;
    assert PeriodAt(s, 5) == Some(Period(t) == "PM");
    assert MinuteThenPeriod(s, 3, h12) == Some(ClockMatch(h12, Minute(t), Period(t) == "PM"));
    assert TwelveHourAt(s, 0) == Some(ClockMatch(h12, Minute(t), Period(t) == "PM"));
    To24HourInverts(t, h12, Period(t) == "PM");
  }

  /** "13 PM" passes the pattern but not the range check: the call raises. */
  lemma ThirteenPmRaises(now: Timestamp)
    ensures ExtractSpecificTime("13 PM", now).Raised?
  {
    var s := "13 PM";
    assert Span(s, 3, IsSpace) == 3;
    assert Span(s, 2, IsSpace) == 3;
    assert PeriodAt(s, 2) == Some(true);
    assert DigitsValue(s[0..2]) == 13 by {
      assert s[0..2] == "13";
      assert "13"[..1] == "1" && ""[..0] == "";
      assert DigitsValue("1") == 1;
    }
    assert TwelveHourAt(s, 0) == Some(ClockMatch(13, 0, true));
  }

  /** "2 PM" is two in the afternoon today. */
  lemma TwoPmParses(now: Timestamp)
    ensures ExtractSpecificTime("2 PM", now) == Ok(Some(At(now, 14, 0)))
  {
    var s := "2 PM";
    assert Span(s, 2, IsSpace) == 2;
    assert Span(s, 1, IsSpace) == 2;
    assert PeriodAt(s, 1) == Some(true);
    assert DigitsValue(s[0..1]) == 2 by {
      assert s[0..1] == "2" && ""[..0] == "";
    }
    assert TwelveHourAt(s, 0) == Some(ClockMatch(2, 0, true));
  }

  /** "9:30 am" is half past nine in the morning today. */
  lemma NineThirtyAmParses(now: Timestamp)
    ensures ExtractSpecificTime("9:30 am", now) == Ok(Some(At(now, 9, 30)))
  {
    var s := "9:30 am";
    assert Span(s, 5, IsSpace) == 5;
    assert Span(s, 4, IsSpace) == 5;
    assert PeriodAt(s, 4) == Some(false);
    assert DigitsValue(s[0..1]) == 9 by {
      assert s[0..1] == "9" && ""[..0] == "";
    }
    assert DigitsValue(s[2..4]) == 30 by {
      assert s[2..4] == "30" && "30"[..1] == "3" && ""[..0] == "";
      assert DigitsValue("3") == 3;
    }
    assert MinuteThenPeriod(s, 2, 9) == Some(ClockMatch(9, 30, false));
    assert TwelveHourAt(s, 0) == Some(ClockMatch(9, 30, false));
  }

  /** The 12-hour pattern finds no period in "14:30". */
  lemma NoPeriodIn1430()
    ensures FirstTwelveHour("14:30", 0).None?
  {
    var s := "14:30";
    NoPeriodAfter14();
    NoPeriodAfter30();
    assert !IsBoundary(s, 1) && !IsBoundary(s, 4) && !DigitAt(s, 2);
  }

  lemma NoPeriodAfter14()
    ensures TwelveHourAt("14:30", 0).None?
  {
    var s := "14:30";
    assert Span(s, 5, IsSpace) == 5;
    assert Span(s, 3, IsSpace) == 3;
    assert Span(s, 2, IsSpace) == 2;
    assert Span(s, 1, IsSpace) == 1;
  }

  lemma NoPeriodAfter30()
    ensures TwelveHourAt("14:30", 3).None?
  {
    var s := "14:30";
    assert Span(s, 5, IsSpace) == 5;
    assert Span(s, 4, IsSpace) == 4;
  }

  /** "14:30" has no period, so the 24-hour form reads it. */
  lemma FourteenThirtyParses(now: Timestamp)
    ensures ExtractSpecificTime("14:30", now) == Ok(Some(At(now, 14, 30)))
  {
    var s := "14:30";
    NoPeriodIn1430();
    assert DigitsValue(s[0..2]) == 14 by {
      assert s[0..2] == "14" && "14"[..1] == "1" && ""[..0] == "";
      assert DigitsValue("1") == 1;
    }
    assert DigitsValue(s[3..5]) == 30 by {
      assert s[3..5] == "30" && "30"[..1] == "3" && ""[..0] == "";
      assert DigitsValue("3") == 3;
    }
    assert TwentyFourHourAt(s, 0) == Some((14, 30));
  }

  // ---------------------------------------------------------------------
  // Dates

  /** `re.search(r'\bphrase\b', s)` on already lower-cased text, from `i`. */
  predicate HasPhraseFrom(s: string, phrase: string, i: nat)
    decreases |s| - i
  {
    if i + |phrase| > |s| then false
    else
      (IsBoundary(s, i) && s[i..i + |phrase|] == phrase && IsBoundary(s, i + |phrase|))
      || HasPhraseFrom(s, phrase, i + 1)
  }

  predicate HasPhrase(s: string, phrase: string) {
    HasPhraseFrom(s, phrase, 0)
  }

  /** Days from the current date to the next date falling on `weekday`:
      from 1 to 7, never 0. */
  function DaysUntil(now: Timestamp, weekday: int): int {
    var ahead := weekday - Weekday(now);
    if ahead <= 0 then ahead + 7 else ahead
  }

  /** `_get_next_weekday`. */
  function NextWeekday(now: Timestamp, weekday: int): Timestamp {
    DayStart(now + DaysUntil(now, weekday) * MinutesPerDay)
  }

  /** The next date on a weekday lies one to seven days ahead, falls on
      that weekday, and is a week ahead when today is that weekday. */
  lemma NextWeekdayAhead(now: Timestamp, weekday: int)
    requires 0 <= weekday <= 6
    ensures 1 <= DaysUntil(now, weekday) <= 7
    ensures NextWeekday(now, weekday) == DayStart(now) + DaysUntil(now, weekday) * MinutesPerDay
    ensures Weekday(NextWeekday(now, weekday)) == weekday
    ensures Weekday(now) == weekday ==> NextWeekday(now, weekday) == DayStart(now) + 7 * MinutesPerDay
  {
    var k := DaysUntil(now, weekday);
    ShiftDays(now, k);
    var d := DayStart(now + k * MinutesPerDay);
    AtFields(now + k * MinutesPerDay, 0, 0);
    assert d == At(now + k * MinutesPerDay, 0, 0);
  }

  /** The keyword table of the date fallback, in order, with each date. */
  function DateKeywords(now: Timestamp): seq<(string, Timestamp)> {
    [ ("today", DayStart(now)),
      ("tomorrow", DayStart(now + MinutesPerDay)),
      ("yesterday", DayStart(now - MinutesPerDay)),
      ("next monday", NextWeekday(now, 0)),
      ("next tuesday", NextWeekday(now, 1)),
      ("next wednesday", NextWeekday(now, 2)),
      ("next thursday", NextWeekday(now, 3)),
      ("next friday", NextWeekday(now, 4)),
      ("next saturday", NextWeekday(now, 5)),
      ("next sunday", NextWeekday(now, 6)) ]
  }

  /** `_extract_date_reference`: the fuzzy parser's date when it finds one,
      else the first keyword of the table present in the text, at 09:00. */
  function ExtractDateReference(text: string, now: Timestamp, fuzzyDate: Option<Timestamp>): (r: Option<Timestamp>)
    ensures fuzzyDate.Some? ==> r == fuzzyDate
    ensures fuzzyDate.None? && r.Some? ==>
      exists k :: 0 <= k < |DateKeywords(now)| && HasPhrase(Lower(text), DateKeywords(now)[k].0)
        && (forall j :: 0 <= j < k ==> !HasPhrase(Lower(text), DateKeywords(now)[j].0))
        && r.value == At(DateKeywords(now)[k].1, 9, 0)
    ensures fuzzyDate.None? && r.None? ==>
      forall k :: 0 <= k < |DateKeywords(now)| ==> !HasPhrase(Lower(text), DateKeywords(now)[k].0)
  {
    if fuzzyDate.Some? then fuzzyDate
    else
      var table := DateKeywords(now);
      var low := Lower(text);
      match FirstWhere(table, (entry: (string, Timestamp)) => HasPhrase(low, entry.0))
      case Some(k) => Some(At(table[k].1, 9, 0))
      case None => None
  }

  /** A keyword date is on the matched day at 09:00. */
  lemma KeywordDateAtNine(text: string, now: Timestamp)
    ensures var r := ExtractDateReference(text, now, None);
      r.Some? ==> Hour(r.value) == 9 && Minute(r.value) == 0
  {
    var r := ExtractDateReference(text, now, None);
    if r.Some? {
      var k :| 0 <= k < |DateKeywords(now)| && r.value == At(DateKeywords(now)[k].1, 9, 0);
      AtFields(DateKeywords(now)[k].1, 9, 0);
    }
  }

  // ---------------------------------------------------------------------
  // Day periods in the text

  /** `_extract_time_range`: the first period name, in table order, that is
      a substring of the lower-cased text. */
  function ExtractTimeRange(text: string): (r: Option<string>)
    ensures r.Some? ==>
      exists k :: 0 <= k < |TimeRanges| && r.value == TimeRanges[k].name
        && Contains(Lower(text), TimeRanges[k].name)
        && forall j :: 0 <= j < k ==> !Contains(Lower(text), TimeRanges[j].name)
    ensures r.None? ==> forall k :: 0 <= k < |TimeRanges| ==> !Contains(Lower(text), TimeRanges[k].name)
  {
    var low := Lower(text);
    match FirstWhere(TimeRanges, (range: TimeRange) => Contains(low, range.name))
    case Some(k) => Some(TimeRanges[k].name)
    case None => None
  }

  // ---------------------------------------------------------------------
  // Relative offsets

  /** A relative-time pattern: a fixed phrase worth a number of days, or
      `\bin (\d+) unit s?\b` worth that many units of a number of days. */
  datatype RelativePattern = Fixed(phrase: string, days: int) | Counted(unit: string, daysPerUnit: int)

  /** The relative-time patterns, in the order the parser tries them. */
  const RelativePatterns: seq<RelativePattern> := [
    Fixed("tomorrow", 1),
    Fixed("next week", 7),
    Fixed("next month", 30),
    Counted("day", 1),
    Counted("week", 7),
    Counted("month", 30)
  ]

  /** `\bin (\d+) unit s?\b` anchored at `i`: the count. The digit run can
      only match whole, since a space must follow it. */
  function CountedAt(s: string, i: nat, unit: string): Option<nat>
    requires i <= |s|
  {
    if i + 3 <= |s| && IsBoundary(s, i) && s[i..i + 3] == "in " then
      var j := Span(s, i + 3, IsDigit);
      var k := j + 1 + |unit|;
      if j > i + 3 && k <= |s| && s[j] == ' ' && s[j + 1..k] == unit
        && (IsBoundary(s, k) || (k < |s| && s[k] == 's' && IsBoundary(s, k + 1)))
      then Some(DigitsValue(s[i + 3..j]))
      else None
    else None
  }

  function FirstCounted(s: string, i: nat, unit: string): Option<nat>
    requires i <= |s|
    decreases |s| - i
  {
    if i == |s| then None
    else if CountedAt(s, i, unit).Some? then CountedAt(s, i, unit)
    else FirstCounted(s, i + 1, unit)
  }

  /** The offset in days one pattern finds in lower-cased text. */
  function MatchRelative(s: string, pattern: RelativePattern): Option<int> {
    match pattern
    case Fixed(phrase, days) => if HasPhrase(s, phrase) then Some(days) else None
    case Counted(unit, daysPerUnit) =>
      match FirstCounted(s, 0, unit)
      case Some(n) => Some(n * daysPerUnit)
      case None => None
  }

  /** `_extract_relative_time`, in days: the first pattern in table order
      that matches decides. */
  function ExtractRelativeTime(text: string): (r: Option<int>)
    ensures r.Some? ==>
      exists k :: 0 <= k < |RelativePatterns|
        && MatchRelative(Lower(text), RelativePatterns[k]) == r
        && forall j :: 0 <= j < k ==> MatchRelative(Lower(text), RelativePatterns[j]).None?
    ensures r.None? ==> forall k :: 0 <= k < |RelativePatterns| ==> MatchRelative(Lower(text), RelativePatterns[k]).None?
  {
    var low := Lower(text);
    match FirstWhere(RelativePatterns, (pattern: RelativePattern) => MatchRelative(low, pattern).Some?)
    case Some(k) => MatchRelative(low, RelativePatterns[k])
    case None => None
  }

  /** The offsets the table gives: 1, 7 and 30 days for the phrases, N, 7N
      and 30N days for "in N days/weeks/months". */
  lemma RelativeOffsets(text: string)
    ensures var r := ExtractRelativeTime(text); var low := Lower(text);
      r.Some? ==>
        r.value in {1, 7, 30}
        || (exists n: nat :: FirstCounted(low, 0, "day") == Some(n) && r.value == n)
        || (exists n: nat :: FirstCounted(low, 0, "week") == Some(n) && r.value == 7 * n)
        || (exists n: nat :: FirstCounted(low, 0, "month") == Some(n) && r.value == 30 * n)
  {
    var r := ExtractRelativeTime(text);
    var low := Lower(text);
    if r.Some? {
      var k :| 0 <= k < |RelativePatterns| && MatchRelative(low, RelativePatterns[k]) == r;
      if k >= 3 {
        var n := FirstCounted(low, 0, RelativePatterns[k].unit).value;
        assert r.value == n * RelativePatterns[k].daysPerUnit;
      }
    }
  }

  // ---------------------------------------------------------------------
  // "before …" / "after …" anchors and event mentions

  /** The capture of `(.+)` when it starts at `start` or, backtracking the
      space run before it, at an earlier position after `q`. */
  function CaptureFrom(s: string, q: nat, start: nat): Option<string>
    requires q < start <= |s|
    decreases start
  {
    var e := Span(s, start, NotNewline);
    if e > start then Some(s[start..e])
    else if start - 1 > q then CaptureFrom(s, q, start - 1)
    else None
  }

  /** `\s+(.+)` anchored at `q`: the captured text. */
  function RestAfterSpaces(s: string, q: nat): Option<string>
    requires q <= |s|
  {
    var e := Span(s, q, IsSpace);
    if e == q then None else CaptureFrom(s, q, e)
  }

  /** The capture of the first match of `\bkeyword\s+(.+)` from `i`. */
  function KeywordCapture(s: string, keyword: string, i: nat): Option<string>
    requires i <= |s|
    decreases |s| - i
  {
    if i == |s| || i + |keyword| > |s| then None
    else if IsBoundary(s, i) && s[i..i + |keyword|] == keyword && RestAfterSpaces(s, i + |keyword|).Some?
    then RestAfterSpaces(s, i + |keyword|)
    else KeywordCapture(s, keyword, i + 1)
  }

  /** Some word of the reference text is a substring of the event's title. */
  predicate MentionsAnyWord(title: string, words: seq<string>) {
    exists k :: 0 <= k < |words| && Contains(Lower(title), words[k])
  }

  /** The words after "before" (which wins when both occur) or "after". */
  function AnchorWords(text: string): Option<seq<string>> {
    var low := Lower(text);
    var before := KeywordCapture(low, "before", 0);
    var after := KeywordCapture(low, "after", 0);
    if before.Some? then Some(Words(before.value))
    else if after.Some? then Some(Words(after.value))
    else None
  }

  /** `_extract_deadline_reference`: the first event whose title contains a
      word of the reference text; an hour before its start for "before",
      an hour after its end for "after". */
  function ExtractDeadlineReference(text: string, events: seq<CalendarEvent>): (r: Option<Timestamp>)
    ensures r.Some? ==> AnchorWords(text).Some?
    ensures r.Some? ==>
      exists k :: 0 <= k < |events|
        && MentionsAnyWord(events[k].title, AnchorWords(text).value)
        && (forall j :: 0 <= j < k ==> !MentionsAnyWord(events[j].title, AnchorWords(text).value))
        && r.value == (if KeywordCapture(Lower(text), "before", 0).Some?
                       then events[k].startTime - MinutesPerHour
                       else events[k].endTime + MinutesPerHour)
    ensures r.None? && AnchorWords(text).Some? ==>
      forall k :: 0 <= k < |events| ==> !MentionsAnyWord(events[k].title, AnchorWords(text).value)
  {
    var isBefore := KeywordCapture(Lower(text), "before", 0).Some?;
    match AnchorWords(text)
    case None => None
    case Some(words) =>
      match FirstWhere(events, (e: CalendarEvent) => MentionsAnyWord(e.title, words))
      case None => None
      case Some(k) =>
        Some(if isBefore then events[k].startTime - MinutesPerHour else events[k].endTime + MinutesPerHour)
  }

  /** `sum(1 for word in event_words if word in text_words)`. */
  function CountPresent(eventWords: seq<string>, textWords: seq<string>): nat
    decreases |eventWords|
  {
    if |eventWords| == 0 then 0
    else
      CountPresent(eventWords[..|eventWords| - 1], textWords)
      + (if eventWords[|eventWords| - 1] in textWords then 1 else 0)
  }

  predicate SharesTwoWords(text: string, e: CalendarEvent) {
    CountPresent(Words(Lower(e.title)), Words(Lower(text))) >= 2
  }

  /** `_extract_context_event`: the first event at least two of whose title
      words are words of the text. */
  function ExtractContextEvent(text: string, events: seq<CalendarEvent>): (r: Option<CalendarEvent>)
    ensures r.Some? ==>
      exists k :: 0 <= k < |events| && r.value == events[k]
        && SharesTwoWords(text, events[k])
        && forall j :: 0 <= j < k ==> !SharesTwoWords(text, events[j])
    ensures r.None? ==> forall k :: 0 <= k < |events| ==> !SharesTwoWords(text, events[k])
  {
    match FirstWhere(events, (e: CalendarEvent) => SharesTwoWords(text, e))
    case Some(k) => Some(events[k])
    case None => None
  }

  // ---------------------------------------------------------------------
  // The parsed expression and its resolution

  /** The signals found in one text; confidence is in tenths. */
  datatype TimeExpression = TimeExpression(
    specificTime: Option<Timestamp>,
    preferredDate: Option<Timestamp>,
    preferredTimeRange: Option<string>,
    relativeOffsetDays: Option<int>,
    deadlineReference: Option<Timestamp>,
    contextEvent: Option<CalendarEvent>,
    confidence: int)

  function Weight(present: bool, tenths: int): int {
    if present then tenths else 0
  }

  /** What `parse_time_expression` returns for a text. A zero offset is a
      falsy `timedelta` and is not recorded. */
  function ParsedExpression(text: string, events: seq<CalendarEvent>, now: Timestamp,
                            fuzzyDate: Option<Timestamp>): Outcome<TimeExpression>
  {
    match ExtractSpecificTime(text, now)
    case Raised(error) => Raised(error)
    case Ok(specific) =>
      Ok(Combine(specific, ExtractDateReference(text, now, fuzzyDate), ExtractTimeRange(text),
        ExtractRelativeTime(text), ExtractDeadlineReference(text, events), ExtractContextEvent(text, events)))
  }

  /** The expression built from the extracted signals. */
  function Combine(specific: Option<Timestamp>, date: Option<Timestamp>, range: Option<string>,
                   relative: Option<int>, deadline: Option<Timestamp>, event: Option<CalendarEvent>): TimeExpression
  {
    var offset := if relative.Some? && relative.value != 0 then relative else None;
    TimeExpression(specific, date, range, offset, deadline, event,
      0 + Weight(specific.Some?, 4) + Weight(date.Some?, 3) + Weight(range.Some?, 2)
      + Weight(offset.Some?, 3) + Weight(deadline.Some?, 4) + Weight(event.Some?, 4))
  }

  /** `if signal: result[key] = signal; confidence += weight`. */
  method RecordSignal<T>(signal: Option<T>, confidence: int, weight: int) returns (field: Option<T>, newConfidence: int)
    ensures field == signal && newConfidence == confidence + Weight(signal.Some?, weight)
  {
    field := None;
    newConfidence := confidence;
    if signal.Some? {
      field := signal;
      newConfidence := confidence + weight;
    }
  }

  /** The result dictionary filled signal by signal, each present signal
      adding its weight to a confidence that starts at zero. */
  method RecordSignals(specific: Option<Timestamp>, date: Option<Timestamp>, range: Option<string>,
                       relative: Option<int>, deadline: Option<Timestamp>, event: Option<CalendarEvent>)
    returns (r: TimeExpression)
    ensures r == Combine(specific, date, range, relative, deadline, event)
  {
    var confidence := 0;
    var specificTime, preferredDate, preferredTimeRange, relativeOffset, deadlineReference, contextEvent;
    specificTime, confidence := RecordSignal(specific, confidence, 4);
    preferredDate, confidence := RecordSignal(date, confidence, 3);
    preferredTimeRange, confidence := RecordSignal(range, confidence, 2);
    relativeOffset, confidence :=
      RecordSignal(if relative.Some? && relative.value != 0 then relative else None, confidence, 3);
    deadlineReference, confidence := RecordSignal(deadline, confidence, 4);
    contextEvent, confidence := RecordSignal(event, confidence, 4);
    return TimeExpression(specificTime, preferredDate, preferredTimeRange, relativeOffset,
                          deadlineReference, contextEvent, confidence);
  }

  /** `parse_time_expression`: each signal in turn, adding its weight. */
  method ParseTimeExpression(text: string, events: seq<CalendarEvent>, now: Timestamp,
                             fuzzyDate: Option<Timestamp>) returns (r: Outcome<TimeExpression>)
    ensures r == ParsedExpression(text, events, now, fuzzyDate)
  {
    var specific := ExtractSpecificTime(text, now);
    if specific.Raised? {
      return Raised(specific.error);
    }
    var date := ExtractDateReference(text, now, fuzzyDate);
    var range := ExtractTimeRange(text);
    var relative := ExtractRelativeTime(text);
    var deadline := ExtractDeadlineReference(text, events);
    var event := ExtractContextEvent(text, events);
    var expression := RecordSignals(specific.value, date, range, relative, deadline, event);
    return Ok(expression);
  }

  /** The confidence is the sum of the weights of the signals found: from 0
      to 2.0, and zero exactly when nothing was found. */
  lemma ConfidenceIsSignalSum(text: string, events: seq<CalendarEvent>, now: Timestamp, fuzzyDate: Option<Timestamp>)
    ensures var p := ParsedExpression(text, events, now, fuzzyDate);
      p.Ok? ==>
        0 <= p.value.confidence <= 20
        && (p.value.confidence == 0 <==>
            p.value.specificTime.None? && p.value.preferredDate.None? && p.value.preferredTimeRange.None?
            && p.value.relativeOffsetDays.None? && p.value.deadlineReference.None? && p.value.contextEvent.None?)
  {
  }

  /** `resolve_time_expression`: the first present signal in the order
      clock time, deadline, event (an hour before it), date (at the middle
      hour of a known period), offset from now. */
  function ResolveTimeExpression(e: TimeExpression, now: Timestamp): Option<Timestamp> {
    if e.specificTime.Some? then e.specificTime
    else if e.deadlineReference.Some? then e.deadlineReference
    else if e.contextEvent.Some? then Some(e.contextEvent.value.startTime - MinutesPerHour)
    else if e.preferredDate.Some? then
      var range :=
        if e.preferredTimeRange.Some? && e.preferredTimeRange.value != ""
        then LookupRange(e.preferredTimeRange.value) else None;
      if range.Some? then Some(At(e.preferredDate.value, (range.value.startHour + range.value.endHour) / 2, 0))
      else e.preferredDate
    else if e.relativeOffsetDays.Some? && e.relativeOffsetDays.value != 0 then
      Some(now + e.relativeOffsetDays.value * MinutesPerDay)
    else None
  }

  /** The time each signal would resolve to on its own, in priority order. */
  function ResolutionCandidates(e: TimeExpression, now: Timestamp): seq<Option<Timestamp>> {
    var event := if e.contextEvent.Some? then Some(e.contextEvent.value.startTime - MinutesPerHour) else None;
    var range :=
      if e.preferredTimeRange.Some? && e.preferredTimeRange.value != ""
      then LookupRange(e.preferredTimeRange.value) else None;
    var date :=
      if e.preferredDate.Some? && range.Some?
      then Some(At(e.preferredDate.value, (range.value.startHour + range.value.endHour) / 2, 0))
      else e.preferredDate;
    var offset :=
      if e.relativeOffsetDays.Some? && e.relativeOffsetDays.value != 0
      then Some(now + e.relativeOffsetDays.value * MinutesPerDay) else None;
    [e.specificTime, e.deadlineReference, event, date, offset]
  }

  /** Resolution is a strict tie-break: the first candidate present in the
      priority list wins, whatever the later ones are. */
  lemma ResolveIsFirstCandidate(e: TimeExpression, now: Timestamp)
    ensures var cs := ResolutionCandidates(e, now);
      ResolveTimeExpression(e, now) == FirstPresent(cs)
  {
    var cs := ResolutionCandidates(e, now);
    assert cs[4..][1..] == [];
    assert cs[3..][1..] == cs[4..];
    assert cs[2..][1..] == cs[3..];
    assert cs[1..][1..] == cs[2..];
    assert FirstPresent(cs) == (if cs[0].Some? then cs[0] else FirstPresent(cs[1..]));
    assert FirstPresent(cs[1..]) == (if cs[1].Some? then cs[1] else FirstPresent(cs[2..]));
    assert FirstPresent(cs[2..]) == (if cs[2].Some? then cs[2] else FirstPresent(cs[3..]));
    assert FirstPresent(cs[3..]) == (if cs[3].Some? then cs[3] else FirstPresent(cs[4..]));
    assert FirstPresent(cs[4..]) == (if cs[4].Some? then cs[4] else FirstPresent(cs[4..][1..]));
  }

  /** A day period without a date, clock time, anchor or offset never
      resolves by itself. */
  lemma RangeAloneNeverResolves(e: TimeExpression, now: Timestamp)
    requires e.specificTime.None? && e.deadlineReference.None? && e.contextEvent.None?
    requires e.preferredDate.None? && (e.relativeOffsetDays.None? || e.relativeOffsetDays.value == 0)
    ensures ResolveTimeExpression(e, now).None?
  {
  }

  /** A date with a known period resolves on that date at the floor of the
      mean of the period's bounds, on the hour; for "night" (22, 6) that is
      14:00. */
  lemma MidpointHour(e: TimeExpression, now: Timestamp)
    requires e.specificTime.None? && e.deadlineReference.None? && e.contextEvent.None?
    requires e.preferredDate.Some? && e.preferredTimeRange.Some?
    requires LookupRange(e.preferredTimeRange.value).Some?
    ensures var r := ResolveTimeExpression(e, now);
      var range := LookupRange(e.preferredTimeRange.value).value;
      r.Some? && DayStart(r.value) == DayStart(e.preferredDate.value)
      && Hour(r.value) == (range.startHour + range.endHour) / 2 && Minute(r.value) == 0
    ensures e.preferredTimeRange.value == "night" ==> Hour(ResolveTimeExpression(e, now).value) == 14
  {
    var range := LookupRange(e.preferredTimeRange.value).value;
    assert e.preferredTimeRange.value != "";
    AtFields(e.preferredDate.value, (range.startHour + range.endHour) / 2, 0);
  }

  /** Whatever resolves was a signal worth at least 0.3 of confidence. */
  lemma ResolvedHasConfidence(text: string, events: seq<CalendarEvent>, now: Timestamp, fuzzyDate: Option<Timestamp>)
    ensures var p := ParsedExpression(text, events, now, fuzzyDate);
      p.Ok? && ResolveTimeExpression(p.value, now).Some? ==> p.value.confidence >= 3
  {
  }

  /** A text holding a "before/after" anchor but no clock time resolves to
      the anchor, even when it also holds a date or a relative offset. */
  lemma DeadlineBeatsDateAndOffset(text: string, events: seq<CalendarEvent>, now: Timestamp, fuzzyDate: Option<Timestamp>)
    requires ExtractSpecificTime(text, now) == Ok(None)
    requires ExtractDeadlineReference(text, events).Some?
    ensures ParsedExpression(text, events, now, fuzzyDate).Ok?
    ensures ResolveTimeExpression(ParsedExpression(text, events, now, fuzzyDate).value, now)
         == ExtractDeadlineReference(text, events)
  {
  }

  /** Typing back a slot's displayed clock time resolves to that time of
      day on the parser's date, whatever else the parser is given. */
  lemma ClockTextResolves(t: Timestamp, events: seq<CalendarEvent>, now: Timestamp, fuzzyDate: Option<Timestamp>)
    ensures var p := ParsedExpression(ClockText(t), events, now, fuzzyDate);
      p.Ok? && ResolveTimeExpression(p.value, now) == Some(At(now, Hour(t), Minute(t)))
  {
    ClockTextParsesBack(t, now);
  }

  // ---------------------------------------------------------------------
  // Alternatives to an unavailable time

  /** `_is_valid_time`: in the future, hour 6 to 22, Monday to Friday. */
  predicate IsValidTime(t: Timestamp, now: Timestamp) {
    t > now && 6 <= Hour(t) <= 22 && Weekday(t) < 5
  }

  function ValidAfter(now: Timestamp): Timestamp -> bool {
    t => IsValidTime(t, now)
  }

  /** The times tried, in order: +1, +2, +3, -1, -2, -3 hours, +1 day, +1 week. */
  function AlternativeCandidates(t: Timestamp): seq<Timestamp> {
    [ t + MinutesPerHour, t + 2 * MinutesPerHour, t + 3 * MinutesPerHour,
      t - MinutesPerHour, t - 2 * MinutesPerHour, t - 3 * MinutesPerHour,
      t + MinutesPerDay, t + MinutesPerWeek ]
  }

  /** The valid candidates in their order, at most five. */
  function AlternativeTimes(t: Timestamp, now: Timestamp): seq<Timestamp> {
    var valid := Filter(AlternativeCandidates(t), ValidAfter(now));
    valid[..Min(5, |valid|)]
  }

  /** At most five alternatives, each valid, in the order they were tried:
      five when at least five candidates are valid and all valid ones
      otherwise, skipping no valid candidate that has fewer than five valid
      candidates before it. */
  lemma AlternativeTimesSpec(t: Timestamp, now: Timestamp)
    ensures |AlternativeTimes(t, now)| <= 5
    ensures forall k :: 0 <= k < |AlternativeTimes(t, now)| ==> IsValidTime(AlternativeTimes(t, now)[k], now)
    ensures IsSubsequence(AlternativeTimes(t, now), AlternativeCandidates(t))
    ensures |AlternativeTimes(t, now)| == Min(5, |Filter(AlternativeCandidates(t), ValidAfter(now))|)
    ensures forall k :: 0 <= k < |AlternativeCandidates(t)| && IsValidTime(AlternativeCandidates(t)[k], now)
                        && |Filter(AlternativeCandidates(t)[..k], ValidAfter(now))| < 5
                        ==> AlternativeCandidates(t)[k] in AlternativeTimes(t, now)
  {
    var cands := AlternativeCandidates(t);
    var valid := Filter(cands, ValidAfter(now));
    FilterSpec(cands, ValidAfter(now));
    SubsequencePrefix(valid, cands, Min(5, |valid|));
    forall k | 0 <= k < |cands| && IsValidTime(cands[k], now) && |Filter(cands[..k], ValidAfter(now))| < 5
      ensures cands[k] in AlternativeTimes(t, now)
    {
      FilterAt(cands, ValidAfter(now), k);
      assert AlternativeTimes(t, now)[|Filter(cands[..k], ValidAfter(now))|] == cands[k];
    }
  }

  /** `suggest_alternatives` (the duration argument is unused by the source). */
  method SuggestAlternatives(unavailableTime: Timestamp, now: Timestamp, durationMinutes: int)
    returns (alternatives: seq<Timestamp>)
    ensures alternatives == AlternativeTimes(unavailableTime, now)
  {
    ghost var cands := AlternativeCandidates(unavailableTime);
    var hourOffsets := [1, 2, 3, -1, -2, -3];
    alternatives := [];
    for i := 0 to |hourOffsets|
      invariant alternatives == Filter(cands[..i], ValidAfter(now))
    {
      var alt := unavailableTime + hourOffsets[i] * MinutesPerHour;
      assert cands[..i + 1] == cands[..i] + [alt];
      assert (cands[..i] + [alt])[..i] == cands[..i];
      if IsValidTime(alt, now) {
        alternatives := alternatives + [alt];
      }
    }
    var nextDay := unavailableTime + MinutesPerDay;
    assert cands[..7] == cands[..6] + [nextDay];
    assert (cands[..6] + [nextDay])[..6] == cands[..6];
    if IsValidTime(nextDay, now) {
      alternatives := alternatives + [nextDay];
    }
    var nextWeek := unavailableTime + MinutesPerWeek;
    assert cands == cands[..7] + [nextWeek];
    assert (cands[..7] + [nextWeek])[..7] == cands[..7];
    if IsValidTime(nextWeek, now) {
      alternatives := alternatives + [nextWeek];
    }
    assert alternatives == Filter(AlternativeCandidates(unavailableTime), ValidAfter(now));
    alternatives := alternatives[..Min(5, |alternatives|)];
  }
}
