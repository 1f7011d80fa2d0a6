/** What callers may rely on from the validator, for every setting, reference time and text. */
module SchedulingLaws {
  import opened Wrappers
  import opened Calendar
  import opened TimeText
  import opened CallbackTime

  // ------------------------------------------------------------------
  // "As soon as possible"
  // ------------------------------------------------------------------

  predicate OnHalfHour(t: TimeOfDay) {
    t == Hours(HourOf(t)) || t == Hours(HourOf(t)) + Minutes(30)
  }

  function FloorMinute(m: Moment): Moment {
    Moment(m.day, WholeMinute(m.us))
  }

  lemma MarkIsOnHalfHour(t: TimeOfDay, h: int)
    requires t == Hours(h) || t == Hours(h) + Minutes(30)
    ensures OnHalfHour(t)
  {
    assert HourOf(t) == h;
  }

  /** Past the half hour: the next full hour, tomorrow's first after 23:30. */
  lemma NextFullHour(base: Moment)
    requires WholeMinute(base.us) == base.us && 30 < MinuteOf(base.us)
    ensures RoundUpHalfHour(base)
            == if HourOf(base.us) < 23 then Moment(base.day, Hours(HourOf(base.us) + 1)) else Moment(base.day + 1, 0)
  {
    var h := HourOf(base.us);
    var later := Plus(base, HOUR);
    if h < 23 {
      MomentOrder(later, Moment(base.day, base.us + HOUR));
      assert HourOf(later.us) == h + 1;
    } else {
      MomentOrder(later, Moment(base.day + 1, base.us - Hours(23)));
      assert HourOf(later.us) == 0;
    }
  }

  /** How rounding moves a whole minute: not at all on a half hour, else by one to 29 minutes. */
  lemma RoundUpMinute(base: Moment)
    requires WholeMinute(base.us) == base.us
    ensures OnHalfHour(RoundUpHalfHour(base).us)
    ensures if OnHalfHour(base.us) then RoundUpHalfHour(base) == base
            else Instant(base) + Minutes(1) <= Instant(RoundUpHalfHour(base)) <= Instant(base) + Minutes(29)
  {
    var h, minute := HourOf(base.us), MinuteOf(base.us);
    assert base.us == Hours(h) + Minutes(minute);
    if 0 < minute < 30 {
      MarkIsOnHalfHour(RoundUpHalfHour(base).us, h);
    } else if 30 < minute {
      NextFullHour(base);
      MarkIsOnHalfHour(RoundUpHalfHour(base).us, if h < 23 then h + 1 else 0);
    }
  }

  /** Rounding drops the seconds first. */
  lemma FlooredOnce(m: Moment)
    ensures WholeMinute(FloorMinute(m).us) == FloorMinute(m).us
    ensures RoundUpHalfHour(m) == RoundUpHalfHour(FloorMinute(m))
  {
  }

  lemma RoundUpShape(m: Moment)
    ensures OnHalfHour(RoundUpHalfHour(m).us)
    ensures if OnHalfHour(WholeMinute(m.us)) then RoundUpHalfHour(m) == FloorMinute(m)
            else Instant(FloorMinute(m)) + Minutes(1) <= Instant(RoundUpHalfHour(m))
                 <= Instant(FloorMinute(m)) + Minutes(29)
  {
    FlooredOnce(m);
    RoundUpMinute(FloorMinute(m));
  }

  function HalfHours(m: Moment): int {
    48 * m.day + 2 * HourOf(m.us) + (if m.us == Hours(HourOf(m.us)) then 0 else 1)
  }

  lemma CountOfHalfHours(m: Moment)
    requires OnHalfHour(m.us)
    ensures Instant(m) == HalfHours(m) * 1_800_000_000
  {
  }

  lemma MultiplesLieApart(x: int, y: int)
    requires x * 1_800_000_000 < y * 1_800_000_000
    ensures x * 1_800_000_000 + Minutes(30) <= y * 1_800_000_000
  {
  }

  lemma MarksLieApart(a: Moment, b: Moment)
    requires OnHalfHour(a.us) && OnHalfHour(b.us) && Instant(a) < Instant(b)
    ensures Instant(a) + Minutes(30) <= Instant(b)
  {
    CountOfHalfHours(a);
    CountOfHalfHours(b);
    MultiplesLieApart(HalfHours(a), HalfHours(b));
  }

  /** Rounding yields the least half hour at or after the start of the minute. */
  lemma RoundUpIsLeastHalfHour(m: Moment, other: Moment)
    requires AtOrBefore(FloorMinute(m), other) && OnHalfHour(other.us)
    ensures OnHalfHour(RoundUpHalfHour(m).us)
    ensures AtOrBefore(FloorMinute(m), RoundUpHalfHour(m)) && AtOrBefore(RoundUpHalfHour(m), other)
  {
    RoundUpShape(m);
    var r := RoundUpHalfHour(m);
    MomentOrder(FloorMinute(m), other);
    MomentOrder(FloorMinute(m), r);
    MomentOrder(r, other);
    if Instant(other) < Instant(r) {
      MarksLieApart(other, r);
    }
  }

  /** The slot offered for "asap" is bookable, no bookable moment from the rounded
  start on precedes it, and it never comes a whole minute before the lead time. */
  lemma NextOpenSlotIsEarliest(v: Validator, reference: Moment, other: Moment)
    requires v.Sane()
    ensures v.Bookable(v.NextOpenSlot(reference))
    ensures v.Bookable(other) && AtOrBefore(RoundUpHalfHour(Plus(reference, v.minLead)), other)
            ==> AtOrBefore(v.NextOpenSlot(reference), other)
    ensures Instant(v.NextOpenSlot(reference)) > Instant(reference) + v.minLead - Minutes(1)
  {
    var earliest := Plus(reference, v.minLead);
    var start := RoundUpHalfHour(earliest);
    RoundUpShape(earliest);
    v.EarliestIsBookable(start);
    MomentOrder(start, v.NextOpenSlot(reference));
    if v.Bookable(other) && AtOrBefore(start, other) {
      v.EarliestIsLeast(start, other);
    }
  }

  /** The earliest moment lies inside the minute of a half hour on an open day, after opening and no
  later than closing. */
  predicate Undershoots(v: Validator, reference: Moment) {
    var earliest := Plus(reference, v.minLead);
    var minute := WholeMinute(earliest.us);
    && OnHalfHour(minute) && OpenDay(v.closedWeekdays, earliest.day)
    && minute < earliest.us && minute <= v.close && v.open < earliest.us
  }

  /** "Asap" undershoots the lead time exactly then. */
  lemma AsapUndershoots(v: Validator, reference: Moment)
    requires v.Sane()
    ensures Before(v.NextOpenSlot(reference), Plus(reference, v.minLead)) <==> Undershoots(v, reference)
  {
    var earliest := Plus(reference, v.minLead);
    var start := RoundUpHalfHour(earliest);
    RoundUpShape(earliest);
    v.EarliestIsBookable(start);
    MomentOrder(earliest, start);
    MomentOrder(start, v.NextOpenSlot(reference));
    MomentOrder(v.NextOpenSlot(reference), earliest);
  }

  /** The office takes calls at some moment from the rounded lead time to the end of the horizon. */
  ghost predicate OpensInReach(v: Validator, reference: Moment) {
    exists m: Moment :: v.Bookable(m) && AtOrBefore(RoundUpHalfHour(Plus(reference, v.minLead)), m)
                        && AtOrBefore(m, Plus(reference, Days(v.maxDaysAhead)))
  }

  /** "Asap" overshoots the horizon exactly when the office takes no call in it; with nine days
  between lead time and horizon it never does. */
  lemma AsapOvershoots(v: Validator, reference: Moment)
    requires v.Sane()
    ensures Before(Plus(reference, Days(v.maxDaysAhead)), v.NextOpenSlot(reference)) <==> !OpensInReach(v, reference)
    ensures v.minLead + Days(9) <= Days(v.maxDaysAhead) ==> OpensInReach(v, reference)
  {
    var start, end := RoundUpHalfHour(Plus(reference, v.minLead)), Plus(reference, Days(v.maxDaysAhead));
    var slot := v.NextOpenSlot(reference);
    v.EarliestIsBookable(start);
    if m: Moment :| v.Bookable(m) && AtOrBefore(start, m) && AtOrBefore(m, end) {
      v.EarliestIsLeast(start, m);
      MomentOrder(slot, m);
      MomentOrder(m, end);
      MomentOrder(end, slot);
    }
    if v.minLead + Days(9) <= Days(v.maxDaysAhead) {
      RoundUpShape(Plus(reference, v.minLead));
      MomentOrder(end, slot);
      assert !Before(end, slot);
    }
  }

  /** What "asap" offers would pass the validation it skips exactly when it neither undershoots the
  lead time nor overshoots the horizon. */
  lemma AsapIsAcceptableExactlyWhen(v: Validator, reference: Moment)
    requires v.Sane()
    ensures v.Accepts(v.NextOpenSlot(reference), reference)
       <==> !Undershoots(v, reference) && OpensInReach(v, reference)
  {
    var slot, earliest := v.NextOpenSlot(reference), Plus(reference, v.minLead);
    AsapUndershoots(v, reference);
    AsapOvershoots(v, reference);
    v.EarliestIsBookable(RoundUpHalfHour(earliest));
    MomentOrder(slot, reference);
    MomentOrder(slot, earliest);
  }

  lemma HalfPastSeven()
    ensures Plus(Moment(4, Hours(19)), Minutes(30)) == Moment(4, Hours(19) + Minutes(30))
    ensures RoundUpHalfHour(Moment(4, Hours(19) + Minutes(30))) == Moment(4, Hours(19) + Minutes(30))
  {
  }

  /** Hours from 11:00 to 19:00 with Fridays closed, half an hour of lead and a horizon of one day:
  asked on a Thursday at closing time, "asap" is offered Saturday's opening, past the horizon. */
  lemma AsapCanOvershoot() returns (v: Validator, reference: Moment)
    ensures v == Validator(Hours(11), Hours(19), {4}, 1, Minutes(30)) && v.Sane()
    ensures Weekday(reference.day) == 3 && reference.us == Hours(19)
    ensures v.NextOpenSlot(reference) == Moment(reference.day + 2, Hours(11))
    ensures !OpensInReach(v, reference) && !v.Accepts(v.NextOpenSlot(reference), reference)
  {
    v := Validator(Hours(11), Hours(19), {4}, 1, Minutes(30));
    reference := Moment(4, Hours(19));
    assert OpenDay(v.closedWeekdays, 6) && !OpenDay(v.closedWeekdays, 5);
    HalfPastSeven();
    assert v.NextOpenSlot(reference) == Moment(6, Hours(11)) by { assert v.NextOpenDay(5) == 6; }
    PlusDays(reference, 1);
    AsapOvershoots(v, reference);
    AsapIsAcceptableExactlyWhen(v, reference);
  }

  // ------------------------------------------------------------------
  // Every slot a message can win
  // ------------------------------------------------------------------

  /** What a reason says about the moment it refuses. */
  predicate Explains(v: Validator, reason: Reason, asked: Moment, reference: Moment)
    requires v.Sane()
  {
    var at, now := Instant(asked), Instant(reference);
    match reason
    case InPast => at < now
    case TooSoon => now <= at < now + v.minLead
    case TooFar => now + Days(v.maxDaysAhead) < at
    case ClosedDay => !OpenDay(v.closedWeekdays, asked.day)
    case OutsideHours => asked.us < v.open || v.close < asked.us
    case _ => false
  }

  /** The moment a text that names a time asks for. */
  function Asked(v: Validator, text: string, reference: Moment, date: Option<Ordinal>): Moment
    requires v.Sane() && v.ParseTime(Lower(Strip(text))).Some?
  {
    var time := v.ParseTime(Lower(Strip(text))).value;
    Moment(if date.Some? then date.value else v.ImplicitDate(time, reference), time)
  }

  lemma RefusalExplains(v: Validator, asked: Moment, reference: Moment)
    requires v.Sane() && v.Refusal(asked, reference).Some?
    ensures Explains(v, v.Refusal(asked, reference).value, asked, reference)
  {
    MomentOrder(asked, reference);
    MomentOrder(asked, Plus(reference, v.minLead));
    MomentOrder(Plus(reference, Days(v.maxDaysAhead)), asked);
  }

  /** Whatever the text and the remembered date: an accepted slot falls in opening hours on an
  open day and respects the lead time and the horizon, except that a text that says "asap" may
  undershoot the one and overshoot the other. A
  rejection offers the suggestions and a reason: no time was named, or what is true of the moment
  that was asked for. */
  lemma ParsedSlotIsSound(v: Validator, text: string, reference: Moment, assumeDate: Option<Ordinal>)
    requires v.Sane()
    ensures var r := v.Parse(text, reference, assumeDate);
      if r.slot.Some? then
        var at := r.slot.value.at;
        && r.reason.None? && r.suggestions == [] && v.Bookable(at)
        && Instant(at) > Instant(reference) + v.minLead - Minutes(1)
        && (!ContainsAny(Lower(Strip(text)), ASAP_WORDS) ==>
              Instant(reference) + v.minLead <= Instant(at) <= Instant(reference) + Days(v.maxDaysAhead))
        && (v.Accepts(at, reference) <==>
              (ContainsAny(Lower(Strip(text)), ASAP_WORDS) ==>
                 !Undershoots(v, reference) && OpensInReach(v, reference)))
      else
        && r.reason.Some? && r.suggestions == v.Suggestions(reference)
        && if r.reason.value.NotUnderstood? || r.reason.value.MissingTime?
           then Strip(text) == "" || v.ParseTime(Lower(Strip(text))).None?
           else v.ParseTime(Lower(Strip(text))).Some?
                && Explains(v, r.reason.value, Asked(v, text, reference, r.parsedDate), reference)
  {
    var r := v.Parse(text, reference, assumeDate);
    if r.slot.Some? {
      var at := r.slot.value.at;
      if ContainsAny(Lower(Strip(text)), ASAP_WORDS) {
        NextOpenSlotIsEarliest(v, reference, at);
        AsapIsAcceptableExactlyWhen(v, reference);
      } else {
        assert v.Accepts(at, reference);
        MomentOrder(Plus(reference, v.minLead), at);
        MomentOrder(at, Plus(reference, Days(v.maxDaysAhead)));
      }
    } else if Lower(Strip(text)) != "" && v.ParseTime(Lower(Strip(text))).Some? {
      RefusalExplains(v, Asked(v, text, reference, r.parsedDate), reference);
    }
  }

  /** The lexicon's entry for the afternoon is never used: "noon" is found in the word first. */
  lemma AfternoonIsNeverReached(text: string)
    ensures VagueTime(text) != Some(Hours(14))
  {
    if Contains(text, "afternoon") {
      var i: nat :| i <= |text| && Starts(text, i, "afternoon");
      forall k | 0 <= k < 4 ensures text[i + 5 + k] == "noon"[k] {
        assert "afternoon"[5 + k] == "noon"[k];
      }
      assert Starts(text, i + 5, "noon");
    }
  }

  // ------------------------------------------------------------------
  // Days and hours as people say them
  // ------------------------------------------------------------------

  /** The same day and month a year on is 365 or 366 days later. */
  lemma ThisDateNextYear(date: Date)
    requires IsDate(date) && IsDate(Date(date.year + 1, date.month, date.day))
    ensures 365 <= ToOrdinal(Date(date.year + 1, date.month, date.day)) - ToOrdinal(date) <= 366
  {
    YearStep(date.year);
    MonthTable(date.year);
    MonthTable(date.year + 1);
  }

  lemma SameYearIsNear(a: Date, b: Date)
    requires IsDate(a) && IsDate(b) && a.year == b.year
    ensures ToOrdinal(b) - ToOrdinal(a) < 366
  {
    MonthStartsBounded(a.year, a.month);
    MonthStartsBounded(b.year, b.month);
  }

  /** A day and month mean their next occurrence: not past, and less than a year and a day ahead. */
  lemma DayMonthIsAhead(day: nat, month: int, today: Ordinal)
    requires FromDayMonth(day, month, today).Some?
    ensures today <= FromDayMonth(day, month, today).value <= today + 366
  {
    var now := DateOf(today);
    var date := Date(now.year, month, day);
    SameYearIsNear(now, date);
    if ToOrdinal(date) < today {
      ThisDateNextYear(date);
      OrdinalOrder(now, Date(now.year + 1, month, day));
    }
  }

  /** Unless a year is written out, the day a message names is never past and at most a year ahead. */
  lemma NamedDayIsAhead(text: string, today: Ordinal)
    requires ParseDate(text, today).Some?
    requires Search(NumericDateAt, text, 0).Some? ==> Search(NumericDateAt, text, 0).value.year.None?
    ensures today <= ParseDate(text, today).value <= today + 366
  {
    var numeric := Search(NumericDateAt, text, 0);
    var dayMonth, monthDay := Search(DayMonthAt, text, 0), Search(MonthDayAt, text, 0);
    if numeric.Some? && FromDayMonth(numeric.value.day, numeric.value.month, today).Some? {
      DayMonthIsAhead(numeric.value.day, numeric.value.month, today);
    }
    if dayMonth.Some? && FromDayMonth(dayMonth.value.day, dayMonth.value.month, today).Some? {
      DayMonthIsAhead(dayMonth.value.day, dayMonth.value.month, today);
    }
    if monthDay.Some? && FromDayMonth(monthDay.value.day, monthDay.value.month, today).Some? {
      DayMonthIsAhead(monthDay.value.day, monthDay.value.month, today);
    }
  }

  /** A bare hour is read on the twelve-hour clock so that it falls in opening hours if either reading does. */
  lemma BareHourFitsOpening(v: Validator, hour: nat, reading: nat)
    requires hour <= 23 && (reading == hour || (hour < 12 && reading == hour + 12))
    ensures var r := v.DisambiguateHour(hour);
      && r.Some? && r.value <= 23 && (r.value == hour || (hour < 12 && r.value == hour + 12))
      && (v.open <= Hours(reading) <= v.close ==> v.open <= Hours(r.value) <= v.close)
  {
  }

  // ------------------------------------------------------------------
  // Suggestions
  // ------------------------------------------------------------------

  const LATE_MORNING: TimeOfDay := Hours(11) + Minutes(30)
  const FIVE_PM: TimeOfDay := Hours(17)

  ghost predicate SuggestedLater(v: Validator, suggestions: seq<Slot>, first: Ordinal, last: int) {
    && (forall i :: 0 <= i < |suggestions| ==>
          var at := suggestions[i].at;
          first <= at.day <= last && OpenDay(v.closedWeekdays, at.day) && at.us == LATE_MORNING)
    && (forall i, j :: 0 <= i < j < |suggestions| ==> suggestions[i].at.day < suggestions[j].at.day)
  }

  lemma PrependSuggestion(v: Validator, day: Ordinal, rest: seq<Slot>, last: int)
    requires OpenDay(v.closedWeekdays, day) && day <= last && SuggestedLater(v, rest, day + 1, last)
    ensures SuggestedLater(v, [Slot(Moment(day, LATE_MORNING), "")] + rest, day, last)
  {
  }

  lemma NextOpenDayStep(v: Validator, day: Ordinal)
    requires v.Sane()
    ensures OpenDay(v.closedWeekdays, day) ==> v.NextOpenDay(day) == day && v.NextOpenDay(day + 1) <= day + 7
    ensures !OpenDay(v.closedWeekdays, day) ==> v.NextOpenDay(day) == v.NextOpenDay(day + 1) > day
  {
    v.NextOpenDayIsOpen(day);
    v.NextOpenDayIsOpen(day + 1);
  }

  /** From the day after the earliest moment on, each open day gives its 11:30. */
  lemma {:induction false} LaterSuggestions(v: Validator, day: Ordinal, reference: Moment, count: nat, guard: nat)
    requires v.Sane() && Plus(reference, v.minLead).day < day
    requires guard >= v.NextOpenDay(day) - day + 7 * count
    ensures |v.SuggestionsFrom(day, reference, count, guard)| == count
    ensures count > 0 ==> SuggestedLater(v, v.SuggestionsFrom(day, reference, count, guard), day,
                                         v.NextOpenDay(day) + 7 * (count - 1))
    decreases guard
  {
    NextOpenDayStep(v, day);
    if count > 0 {
      if OpenDay(v.closedWeekdays, day) {
        assert v.SuggestionOn(day, reference) == Some(Moment(day, LATE_MORNING));
        LaterSuggestions(v, day + 1, reference, count - 1, guard - 1);
        PrependSuggestion(v, day, v.SuggestionsFrom(day + 1, reference, count - 1, guard - 1),
                          day + 7 * (count - 1));
      } else {
        LaterSuggestions(v, day + 1, reference, count, guard - 1);
      }
    }
  }

  ghost predicate ThreeOnRisingDays(suggestions: seq<Slot>) {
    |suggestions| == 3 && suggestions[0].at.day < suggestions[1].at.day < suggestions[2].at.day
  }

  ghost predicate FairSuggestion(v: Validator, at: Moment, reference: Moment) {
    && OpenDay(v.closedWeekdays, at.day)
    && LATE_MORNING <= at.us <= FIVE_PM
    && Instant(reference) + v.minLead <= Instant(at) <= Instant(reference) + v.minLead + Days(23)
  }

  lemma LaterIsFair(v: Validator, at: Moment, reference: Moment)
    requires OpenDay(v.closedWeekdays, at.day) && at.us == LATE_MORNING
    requires Plus(reference, v.minLead).day < at.day <= Plus(reference, v.minLead).day + 22
    ensures FairSuggestion(v, at, reference)
  {
  }

  lemma FirstIsFair(v: Validator, day: Ordinal, reference: Moment)
    requires OpenDay(v.closedWeekdays, day) && v.SuggestionOn(day, reference).Some?
    requires day <= Plus(reference, v.minLead).day + 8
    ensures FairSuggestion(v, v.SuggestionOn(day, reference).value, reference)
  {
    MomentOrder(Plus(reference, v.minLead), v.SuggestionOn(day, reference).value);
  }

  /** The day the search starts from. */
  lemma FirstDay(v: Validator, reference: Moment)
    requires v.Sane()
    ensures var earliest := Plus(reference, v.minLead);
            var day := v.NextOpenSlot(reference).day;
            && OpenDay(v.closedWeekdays, day) && earliest.day <= day <= earliest.day + 8
            && (earliest.day < day ==> v.SuggestionOn(day, reference) == Some(Moment(day, LATE_MORNING)))
  {
    var earliest := Plus(reference, v.minLead);
    RoundUpShape(earliest);
    v.EarliestIsBookable(RoundUpHalfHour(earliest));
  }

  lemma LaterAreFair(v: Validator, day: Ordinal, reference: Moment, count: nat, rest: seq<Slot>)
    requires v.Sane() && 1 <= count <= 3 && rest == v.SuggestionsFrom(day + 1, reference, count, 29)
    requires OpenDay(v.closedWeekdays, day)
    requires var earliest := Plus(reference, v.minLead).day;
             earliest <= day <= earliest + 8 && (count == 3 ==> day == earliest)
    ensures |rest| == count
    ensures forall i :: 0 <= i < count ==> FairSuggestion(v, rest[i].at, reference) && rest[i].at.us == LATE_MORNING
                                           && day < rest[i].at.day
    ensures forall i, j :: 0 <= i < j < count ==> rest[i].at.day < rest[j].at.day
  {
    NextOpenDayStep(v, day);
    LaterSuggestions(v, day + 1, reference, count, 29);
    forall i | 0 <= i < count
      ensures FairSuggestion(v, rest[i].at, reference)
    {
      LaterIsFair(v, rest[i].at, reference);
    }
  }

  lemma SuggestionsSplit(v: Validator, reference: Moment)
    requires v.Sane()
    ensures var day := v.NextOpenSlot(reference).day;
            var first := v.SuggestionOn(day, reference);
            v.Suggestions(reference)
            == if first.Some? then [Slot(first.value, "")] + v.SuggestionsFrom(day + 1, reference, 2, 29)
               else v.SuggestionsFrom(day + 1, reference, 3, 29)
  {
    FirstDay(v, reference);
  }

  /** Always three suggestions, on rising open days and after the lead time; the
  second and third are at 11:30, and none is more than 23 days past the earliest moment. */
  lemma SuggestionsShape(v: Validator, reference: Moment)
    requires v.Sane()
    ensures ThreeOnRisingDays(v.Suggestions(reference))
    ensures forall i :: 0 <= i < 3 ==> FairSuggestion(v, v.Suggestions(reference)[i].at, reference)
    ensures v.Suggestions(reference)[1].at.us == v.Suggestions(reference)[2].at.us == LATE_MORNING
    ensures v.SuggestionOn(v.NextOpenSlot(reference).day, reference).Some? ==>
              v.Suggestions(reference)[0].at == v.SuggestionOn(v.NextOpenSlot(reference).day, reference).value
  {
    var day := v.NextOpenSlot(reference).day;
    FirstDay(v, reference);
    SuggestionsSplit(v, reference);
    if v.SuggestionOn(day, reference).Some? {
      FirstIsFair(v, day, reference);
      LaterAreFair(v, day, reference, 2, v.SuggestionsFrom(day + 1, reference, 2, 29));
    } else {
      LaterAreFair(v, day, reference, 3, v.SuggestionsFrom(day + 1, reference, 3, 29));
    }
  }

  ghost predicate SuggestionsAccepted(v: Validator, reference: Moment) {
    forall s :: s in v.Suggestions(reference) ==> v.Accepts(s.at, reference)
  }

  /** With an adequate horizon, every suggestion ever made is itself acceptable exactly
  when the office opens by 11:30 and closes no earlier than 17:00. */
  lemma SuggestionsAreAcceptable(v: Validator)
    requires v.Sane() && Days(v.maxDaysAhead) >= v.minLead + Days(23)
    ensures (forall reference :: SuggestionsAccepted(v, reference)) <==> (v.open <= LATE_MORNING && FIVE_PM <= v.close)
  {
    if v.open <= LATE_MORNING && FIVE_PM <= v.close {
      forall reference
        ensures SuggestionsAccepted(v, reference)
      {
        SuggestionsFitWideHours(v, reference);
      }
    } else {
      var reference := RefusedSuggestion(v);
      assert !SuggestionsAccepted(v, reference);
    }
  }

  lemma SuggestionsFitWideHours(v: Validator, reference: Moment)
    requires v.Sane() && Days(v.maxDaysAhead) >= v.minLead + Days(23)
    requires v.open <= LATE_MORNING && FIVE_PM <= v.close
    ensures SuggestionsAccepted(v, reference)
  {
    SuggestionsShape(v, reference);
    forall s | s in v.Suggestions(reference)
      ensures v.Accepts(s.at, reference)
    {
      MomentOrder(s.at, reference);
      MomentOrder(s.at, Plus(reference, v.minLead));
      MomentOrder(Plus(reference, Days(v.maxDaysAhead)), s.at);
    }
  }

  /** An open day as late as wanted: opening days repeat weekly. */
  lemma OpenDayAfter(v: Validator, day: Ordinal) returns (d: Ordinal)
    requires v.Sane()
    ensures day <= d && OpenDay(v.closedWeekdays, d)
  {
    v.NextOpenDayIsOpen(day);
    d := v.NextOpenDay(day);
  }

  /** When the hours are narrower, some reference draws a suggestion outside them. */
  lemma RefusedSuggestion(v: Validator) returns (reference: Moment)
    requires v.Sane() && (LATE_MORNING < v.open || v.close < FIVE_PM)
    ensures !SuggestionsAccepted(v, reference)
  {
    if LATE_MORNING < v.open || v.close < LATE_MORNING {
      reference := Moment(1, 0);
      SuggestionsShape(v, reference);
      var second := v.Suggestions(reference)[1];
      assert second in v.Suggestions(reference) && !v.Accepts(second.at, reference);
    } else {
      // One microsecond past the last fixed time that still fits.
      var last := if Hours(14) <= v.close then Hours(14) else LATE_MORNING;
      var lead := Plus(Moment(1, 0), v.minLead);
      var d := OpenDayAfter(v, lead.day + 2);
      var earliest := Moment(d, last + 1);
      reference := MomentBefore(earliest, v.minLead);
      OnTheHalfHour(last);
      RoundUpShape(earliest);
      assert v.NextOpenSlot(reference) == Moment(d, last);
      SuggestionsShape(v, reference);
      var first := v.Suggestions(reference)[0];
      assert first.at.us > v.close;
      assert first in v.Suggestions(reference) && !v.Accepts(first.at, reference);
    }
  }

  lemma OnTheHalfHour(t: TimeOfDay)
    requires t == Hours(14) || t == LATE_MORNING
    ensures WholeMinute(t + 1) == t && OnHalfHour(t)
  {
  }

  lemma MomentBefore(m: Moment, delta: nat) returns (r: Moment)
    requires Instant(m) - delta >= DAY
    ensures Plus(r, delta) == m
  {
    var at := Instant(m) - delta;
    r := Moment(at / 86_400_000_000, at % 86_400_000_000);
    MomentOrder(Plus(r, delta), m);
  }

  // ------------------------------------------------------------------
  // Time-only messages
  // ------------------------------------------------------------------

  ghost predicate NamesOnlyATime(v: Validator, text: string, reference: Moment, assumeDate: Option<Ordinal>) {
    var cleaned := Lower(Strip(text));
    && cleaned != "" && !ContainsAny(cleaned, ASAP_WORDS)
    && ParseDate(cleaned, reference.day).None? && v.ParseTime(cleaned).Some?
    && (assumeDate.Some? ==> assumeDate.value < reference.day)
  }

  lemma TimeOnlyOutcome(v: Validator, text: string, reference: Moment, assumeDate: Option<Ordinal>)
    requires NamesOnlyATime(v, text, reference, assumeDate)
    ensures var time := v.ParseTime(Lower(Strip(text))).value;
            v.Parse(text, reference, assumeDate)
            == v.Validate(Moment(v.ImplicitDate(time, reference), time), Strip(text), reference)
  {
  }

  lemma ImplicitDateAccepted(v: Validator, time: TimeOfDay, reference: Moment, other: Ordinal)
    requires v.Sane() && v.minLead <= v.open <= time <= v.close && 8 <= v.maxDaysAhead
    ensures v.Accepts(Moment(v.ImplicitDate(time, reference), time), reference)
    ensures v.Accepts(Moment(other, time), reference) ==> v.ImplicitDate(time, reference) <= other
  {
    var candidate := Moment(v.ImplicitDate(time, reference), time);
    NextOpenDayStep(v, reference.day + 1);
    v.NextOpenDayIsOpen(reference.day + 1);
    MomentOrder(candidate, reference);
    MomentOrder(candidate, Plus(reference, v.minLead));
    MomentOrder(Plus(reference, Days(v.maxDaysAhead)), candidate);
  }

  /** A bare time inside opening hours, with no date in force, is always accepted and
  lands on the first day on which that time is acceptable. */
  lemma TimeOnlyIsBooked(v: Validator, text: string, reference: Moment, assumeDate: Option<Ordinal>, other: Ordinal)
    requires v.Sane() && v.minLead <= v.open && 8 <= v.maxDaysAhead
    requires NamesOnlyATime(v, text, reference, assumeDate)
    requires v.open <= v.ParseTime(Lower(Strip(text))).value <= v.close
    ensures var slot := v.Parse(text, reference, assumeDate).slot;
            var time := v.ParseTime(Lower(Strip(text))).value;
            && slot.Some? && slot.value.at.us == time
            && (v.Accepts(Moment(other, time), reference) ==> slot.value.at.day <= other)
  {
    TimeOnlyOutcome(v, text, reference, assumeDate);
    ImplicitDateAccepted(v, v.ParseTime(Lower(Strip(text))).value, reference, other);
  }
}
