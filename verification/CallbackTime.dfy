/** Reading, validating and printing a requested callback time. */
module CallbackTime {
  import opened Wrappers
  import opened Calendar
  import opened TimeText

  datatype Reason = NotUnderstood | MissingTime | InPast | TooSoon | TooFar | ClosedDay | OutsideHours

  datatype Slot = Slot(at: Moment, raw: string) {
    /** "Monday, 5 August at 4:30 PM". */
    function Display(): string {
      var date := DateOf(at.day);
      var hour := HourOf(at.us);
      var minute := MinuteOf(at.us);
      WeekdayName(Weekday(at.day)) + ", " + Decimal(date.day) + " " + MonthName(date.month)
      + " at " + Decimal(Hour12(hour)) + (if minute == 0 then "" else ":" + TwoDigits(minute))
      + (if hour < 12 then " AM" else " PM")
    }
  }

  function Hour12(hour: nat): nat {
    if hour % 12 == 0 then 12 else hour % 12
  }

  function DigitChar(n: nat): char
    requires n < 10
  {
    '0' + n as char
  }

  function Decimal(n: nat): string {
    if n < 10 then [DigitChar(n)] else Decimal(n / 10) + [DigitChar(n % 10)]
  }

  function TwoDigits(n: nat): string
    requires n < 100
  {
    [DigitChar(n / 10), DigitChar(n % 10)]
  }

  function WeekdayName(w: int): string {
    match w
    case 0 => "Monday" case 1 => "Tuesday" case 2 => "Wednesday" case 3 => "Thursday"
    case 4 => "Friday" case 5 => "Saturday" case _ => "Sunday"
  }

  function MonthName(m: int): string {
    match m
    case 1 => "January" case 2 => "February" case 3 => "March" case 4 => "April"
    case 5 => "May" case 6 => "June" case 7 => "July" case 8 => "August"
    case 9 => "September" case 10 => "October" case 11 => "November" case _ => "December"
  }

  datatype ParseResult = ParseResult(
    slot: Option<Slot>,
    reason: Option<Reason>,
    parsedDate: Option<Ordinal>,
    suggestions: seq<Slot>)

  function ApplyMeridiem(hour: nat, meridiem: Option<Meridiem>): nat {
    match meridiem
    case None => hour
    case Some(Pm) => if hour < 12 then hour + 12 else hour
    case Some(Am) => if hour == 12 then 0 else hour
  }

  /** `time(hour, minute)`, when that is a time of day. */
  function ClockTime(hour: nat, minute: nat): Option<TimeOfDay> {
    if hour <= 23 && minute <= 59 then Some(Hours(hour) + Minutes(minute)) else None
  }

  function ClockReading(found: Clock): Option<TimeOfDay> {
    ClockTime(ApplyMeridiem(found.hour, found.meridiem), found.minute)
  }

  /** Snap forward to the next :00 or :30. */
  function RoundUpHalfHour(m: Moment): Moment {
    var base := Moment(m.day, WholeMinute(m.us));
    var minute := MinuteOf(base.us);
    if minute == 0 || minute == 30 then base
    else if minute < 30 then Moment(base.day, base.us + Minutes(30 - minute))
    else
      var later := Plus(base, HOUR);
      Moment(later.day, Hours(HourOf(later.us)))
  }

  function FromDayMonth(day: nat, month: int, today: Ordinal): Option<Ordinal> {
    var year := DateOf(today).year;
    if !IsDate(Date(year, month, day)) then None
    else if today <= ToOrdinal(Date(year, month, day)) then Some(ToOrdinal(Date(year, month, day)))
    else if IsDate(Date(year + 1, month, day)) then Some(ToOrdinal(Date(year + 1, month, day)))
    else None
  }

  /** Day first, as used in India; a date that has gone by means next year, unless the year was given. */
  function FromNumericDate(found: NumericDate, today: Ordinal): Option<Ordinal> {
    match found.year
    case None => FromDayMonth(found.day, found.month, today)
    case Some(y) =>
      var date := Date(if y < 100 then y + 2000 else y, found.month, found.day);
      if IsDate(date) then Some(ToOrdinal(date)) else None
  }

  /** A weekday said on that weekday means the coming one, with or without "next". */
  function NextWeekday(today: Ordinal, weekday: int): (n: Ordinal)
    ensures today < n <= today + 7
  {
    var delta := (weekday - Weekday(today)) % 7;
    today + (if delta == 0 then 7 else delta)
  }

  function NumericReading(found: Option<NumericDate>, today: Ordinal): Option<Ordinal> {
    if found.Some? then FromNumericDate(found.value, today) else None
  }

  function DayMonthReading(found: Option<DayMonth>, today: Ordinal): Option<Ordinal> {
    if found.Some? then FromDayMonth(found.value.day, found.value.month, today) else None
  }

  function WeekdayReading(found: Option<int>, today: Ordinal): Option<Ordinal> {
    if found.Some? then Some(NextWeekday(today, found.value)) else None
  }

  /** The day a message names, if it names one. */
  function ParseDate(text: string, today: Ordinal): Option<Ordinal> {
    if Contains(text, "day after tomorrow") || Contains(text, "day after tmrw") then Some(today + 2)
    else if ContainsAnyWord(text, TOMORROW_WORDS) then Some(today + 1)
    else if ContainsAnyWord(text, TODAY_WORDS) then Some(today)
    else CalendarDate(text, today)
  }

  /** The first of the calendar patterns whose match is a date. */
  function CalendarDate(text: string, today: Ordinal): Option<Ordinal> {
    var numeric := NumericReading(Search(NumericDateAt, text, 0), today);
    if numeric.Some? then numeric
    else
      var dayMonth := DayMonthReading(Search(DayMonthAt, text, 0), today);
      if dayMonth.Some? then dayMonth
      else
        var monthDay := DayMonthReading(Search(MonthDayAt, text, 0), today);
        if monthDay.Some? then monthDay else WeekdayReading(WeekdayNamed(text), today)
  }

  predicate OpenDay(closed: set<int>, day: Ordinal) {
    Weekday(day) !in closed
  }

  /** First open day at or after `day`, looking at `fuel` further days. */
  function OpenDayFrom(closed: set<int>, day: Ordinal, fuel: nat): (d: Ordinal)
    ensures day <= d <= day + fuel
    ensures forall k :: day <= k < d ==> !OpenDay(closed, k)
    ensures OpenDay(closed, d) || d == day + fuel
    decreases fuel, day
  {
    if OpenDay(closed, day) || fuel == 0 then day else OpenDayFrom(closed, day + 1, fuel - 1)
  }

  /** The validator of one business: opening hours, closed weekdays, horizon in days, lead time. */
  datatype Validator = Validator(
    open: TimeOfDay, close: TimeOfDay, closedWeekdays: set<int>, maxDaysAhead: nat, minLead: nat)
  {
    /** Some weekday is open and the office opens no later than it closes. */
    ghost predicate Sane() {
      open <= close && exists d: Ordinal :: OpenDay(closedWeekdays, d)
    }

    /** A moment at which the office takes calls. */
    predicate Bookable(m: Moment) {
      OpenDay(closedWeekdays, m.day) && open <= m.us <= close
    }

    function NextOpenDay(day: Ordinal): Ordinal {
      OpenDayFrom(closedWeekdays, day, 6)
    }

    /** Why a moment is refused; None accepts it. */
    function Refusal(candidate: Moment, reference: Moment): Option<Reason> {
      if Before(candidate, reference) then Some(InPast)
      else if Before(candidate, Plus(reference, minLead)) then Some(TooSoon)
      else if Before(Plus(reference, Days(maxDaysAhead)), candidate) then Some(TooFar)
      else if !OpenDay(closedWeekdays, candidate.day) then Some(ClosedDay)
      else if !(open <= candidate.us <= close) then Some(OutsideHours)
      else None
    }

    predicate Accepts(candidate: Moment, reference: Moment) {
      Refusal(candidate, reference).None?
    }

    /** The first bookable moment at or after `start`, in closed form. */
    function EarliestBookable(start: Moment): Moment {
      if OpenDay(closedWeekdays, start.day) && start.us <= close
      then Moment(start.day, if start.us < open then open else start.us)
      else Moment(NextOpenDay(start.day + 1), open)
    }

    function NextOpenSlot(reference: Moment): Moment {
      EarliestBookable(RoundUpHalfHour(Plus(reference, minLead)))
    }

    /** The first of the day's fixed times that respects the lead time. */
    function SuggestionOn(day: Ordinal, reference: Moment): Option<Moment> {
      var earliest := Plus(reference, minLead);
      if AtOrBefore(earliest, Moment(day, Hours(11) + Minutes(30))) then Some(Moment(day, Hours(11) + Minutes(30)))
      else if AtOrBefore(earliest, Moment(day, Hours(14))) then Some(Moment(day, Hours(14)))
      else if AtOrBefore(earliest, Moment(day, Hours(17))) then Some(Moment(day, Hours(17)))
      else None
    }

    /** Suggestions from `day` on, over at most `guard` days and `count` slots. */
    function SuggestionsFrom(day: Ordinal, reference: Moment, count: nat, guard: nat): seq<Slot>
      decreases guard, day
    {
      if guard == 0 || count == 0 then []
      else if OpenDay(closedWeekdays, day) && SuggestionOn(day, reference).Some?
      then [Slot(SuggestionOn(day, reference).value, "")] + SuggestionsFrom(day + 1, reference, count - 1, guard - 1)
      else SuggestionsFrom(day + 1, reference, count, guard - 1)
    }

    function Suggestions(reference: Moment): seq<Slot> {
      SuggestionsFrom(NextOpenSlot(reference).day, reference, 3, 30)
    }

    function Reject(reason: Reason, reference: Moment): ParseResult {
      ParseResult(None, Some(reason), None, Suggestions(reference))
    }

    function Validate(candidate: Moment, raw: string, reference: Moment): ParseResult {
      match Refusal(candidate, reference)
      case Some(reason) => Reject(reason, reference)
      case None => ParseResult(Some(Slot(candidate, raw)), None, None, [])
    }

    /** Both readings of "at 4", preferring one that falls in business hours. */
    function DisambiguateHour(hour: nat): Option<nat> {
      if hour > 23 then None
      else if open <= Hours(hour) <= close then Some(hour)
      else if hour < 12 && open <= Hours(hour + 12) <= close then Some(hour + 12)
      else Some(hour)
    }

    function FullHour(hour: nat): Option<TimeOfDay> {
      var resolved := DisambiguateHour(hour);
      if resolved.Some? then ClockTime(resolved.value, 0) else None
    }

    /** The time of day a message names, if it names one. */
    function ParseTime(text: string): Option<TimeOfDay> {
      var hourMinute := Search(HourMinuteAt, text, 0);
      if hourMinute.Some? then ClockReading(hourMinute.value)
      else
        var hourMeridiem := Search(HourMeridiemAt, text, 0);
        if hourMeridiem.Some? then ClockReading(hourMeridiem.value) else LooseTime(text)
    }

    /** Without a clock time: an o'clock hour, a vague word, a bare hour or a lone number. */
    function LooseTime(text: string): Option<TimeOfDay> {
      var oClock := Search(OClockAt, text, 0);
      if oClock.Some? then FullHour(oClock.value)
      else
        var word := VagueTime(text);
        if word.Some? then word
        else
          var bare := Search(BareHourAt, text, 0);
          if bare.Some? then FullHour(bare.value)
          else if 1 <= |text| <= 2 && DigitRun(text, 0) == |text| then FullHour(Number(text, 0, |text|))
          else None
    }

    /** The day of a message that names only a time. */
    function ImplicitDate(time: TimeOfDay, reference: Moment): Ordinal {
      var today := reference.day;
      if AtOrBefore(Plus(reference, minLead), Moment(today, time)) && OpenDay(closedWeekdays, today)
         && open <= time <= close
      then today
      else NextOpenDay(today + 1)
    }

    /** Parse `text` as of `reference`; `assumeDate` is the day named in an earlier, rejected attempt. */
    function Parse(text: string, reference: Moment, assumeDate: Option<Ordinal>): ParseResult {
      var cleaned := Lower(Strip(text));
      if cleaned == "" then Reject(NotUnderstood, reference)
      else if ContainsAny(cleaned, ASAP_WORDS) then
        ParseResult(Some(Slot(NextOpenSlot(reference), Strip(text))), None, None, [])
      else
        var named := ParseDate(cleaned, reference.day);
        var time := ParseTime(cleaned);
        if time.None? then
          Reject(if named.Some? then MissingTime else NotUnderstood, reference).(parsedDate := named)
        else
          var date := if named.Some? then named
                      else if assumeDate.Some? && reference.day <= assumeDate.value then assumeDate
                      else None;
          var day := if date.Some? then date.value else ImplicitDate(time.value, reference);
          Validate(Moment(day, time.value), Strip(text), reference).(parsedDate := date)
    }

    // ------------------------------------------------------------------
    // The loops of the source, against the closed forms above
    // ------------------------------------------------------------------

    /** Sixty steps of a moving cursor always reach the earliest bookable moment. */
    method FindNextOpenSlot(reference: Moment) returns (cursor: Moment)
      requires Sane()
      ensures cursor == NextOpenSlot(reference)
    {
      cursor := RoundUpHalfHour(Plus(reference, minLead));
      ghost var start := cursor;
      EarliestIsBookable(start);
      ghost var target := EarliestBookable(start);
      ghost var settled := false;
      for step := 0 to 60
        invariant EarliestBookable(cursor) == target
        invariant start.day <= cursor.day <= target.day <= start.day + 7
        invariant step <= cursor.day - start.day + (if settled then 1 else 0)
        invariant settled ==> cursor.us == open
      {
        if !OpenDay(closedWeekdays, cursor.day) || cursor.us > close {
          cursor := Moment(cursor.day + 1, open);
          continue;
        }
        if cursor.us < open {
          cursor := Moment(cursor.day, open);
          settled := true;
          continue;
        }
        return;
      }
    }

    method FirstPreferred(day: Ordinal, reference: Moment) returns (found: Option<Moment>)
      ensures found == SuggestionOn(day, reference)
    {
      var preferred: seq<TimeOfDay> := [Hours(11) + Minutes(30), Hours(14), Hours(17)];
      for i := 0 to |preferred|
        invariant 1 <= i ==> !AtOrBefore(Plus(reference, minLead), Moment(day, Hours(11) + Minutes(30)))
        invariant 2 <= i ==> !AtOrBefore(Plus(reference, minLead), Moment(day, Hours(14)))
        invariant 3 <= i ==> !AtOrBefore(Plus(reference, minLead), Moment(day, Hours(17)))
      {
        if AtOrBefore(Plus(reference, minLead), Moment(day, preferred[i])) {
          return Some(Moment(day, preferred[i]));
        }
      }
      found := None;
    }

    method SuggestSlots(reference: Moment) returns (suggestions: seq<Slot>)
      requires Sane()
      ensures suggestions == Suggestions(reference)
    {
      suggestions := [];
      var cursor := FindNextOpenSlot(reference);
      var day := cursor.day;
      var guard := 0;
      while |suggestions| < 3 && guard < 30
        invariant |suggestions| <= 3 && guard <= 30
        invariant suggestions + SuggestionsFrom(day, reference, 3 - |suggestions|, 30 - guard) == Suggestions(reference)
      {
        ghost var rest := SuggestionsFrom(day + 1, reference, 2 - |suggestions|, 29 - guard);
        guard := guard + 1;
        if OpenDay(closedWeekdays, day) {
          var moment := FirstPreferred(day, reference);
          if moment.Some? {
            assert suggestions + ([Slot(moment.value, "")] + rest) == suggestions + [Slot(moment.value, "")] + rest;
            suggestions := suggestions + [Slot(moment.value, "")];
          }
        }
        day := day + 1;
      }
    }

    method ResolveImplicitDate(time: TimeOfDay, reference: Moment) returns (day: Ordinal)
      requires Sane()
      ensures day == ImplicitDate(time, reference)
    {
      var today := reference.day;
      var sameDay := Moment(today, time);
      if AtOrBefore(Plus(reference, minLead), sameDay) && OpenDay(closedWeekdays, today) && open <= time <= close {
        return today;
      }
      day := today + 1;
      NextOpenDayIsOpen(today + 1);
      for step := 0 to 14
        invariant day == today + 1 + step <= NextOpenDay(today + 1)
      {
        if OpenDay(closedWeekdays, day) {
          return;
        }
        day := day + 1;
      }
    }

    // ------------------------------------------------------------------
    // What the closed forms mean
    // ------------------------------------------------------------------

    /** With one open weekday, an open day is never more than six days away. */
    lemma NextOpenDayIsOpen(day: Ordinal)
      requires Sane()
      ensures OpenDay(closedWeekdays, NextOpenDay(day))
    {
      var d: Ordinal :| OpenDay(closedWeekdays, d);
      var k := (d - day) % 7;
      assert Weekday(day + k) == Weekday(d) by {
        assert (day + k - d) % 7 == 0;
      }
      assert OpenDay(closedWeekdays, day + k);
    }

    lemma EarliestIsBookable(start: Moment)
      requires Sane()
      ensures Bookable(EarliestBookable(start)) && AtOrBefore(start, EarliestBookable(start))
      ensures EarliestBookable(start).day <= start.day + 7
    {
      NextOpenDayIsOpen(start.day + 1);
    }

    /** No bookable moment is skipped. */
    lemma EarliestIsLeast(start: Moment, m: Moment)
      requires Sane() && AtOrBefore(start, m) && Bookable(m)
      ensures AtOrBefore(EarliestBookable(start), m)
    {
      NextOpenDayIsOpen(start.day + 1);
      if start.day < m.day {
        assert OpenDay(closedWeekdays, m.day);
      }
    }
  }
}
