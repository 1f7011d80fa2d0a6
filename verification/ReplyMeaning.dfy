/** What a whole reply to "when shall we call" means: which day and which time of day it names, and
so which moment is booked, or why none is. */
module ReplyMeaning {
  import opened Wrappers
  import opened Calendar
  import opened TimeText
  import opened CallbackTime
  import opened TimeMeaning
  import opened SchedulingLaws

  // ------------------------------------------------------------------
  // The text that is read
  // ------------------------------------------------------------------

  predicate Blank(s: string) {
    forall k :: 0 <= k < |s| ==> IsSpace(s[k])
  }

  /** `raw` is the text without the white space around it. */
  ghost predicate Trimmed(text: string, raw: string) {
    && (exists before: string, after: string :: text == before + raw + after && Blank(before) && Blank(after))
    && (raw != "" ==> !IsSpace(raw[0]) && !IsSpace(raw[|raw| - 1]))
  }

  /** `s` is that in small letters. */
  predicate InSmallLetters(raw: string, s: string) {
    && |s| == |raw|
    && forall k :: 0 <= k < |s| ==>
      s[k] as int == if 'A' <= raw[k] <= 'Z' then raw[k] as int + 32 else raw[k] as int
  }

  lemma PutInFront(s: string, rest: string, left: string)
    requires s != "" && IsSpace(s[0]) && s[1..] == rest + left && Blank(rest)
    ensures s == [s[0]] + rest + left && Blank([s[0]] + rest)
  {
    assert s == [s[0]] + s[1..];
  }

  lemma PutBehind(s: string, right: string, rest: string)
    requires s != "" && IsSpace(s[|s| - 1]) && s[..|s| - 1] == right + rest && Blank(rest)
    ensures s == right + (rest + [s[|s| - 1]]) && Blank(rest + [s[|s| - 1]])
  {
    assert s == s[..|s| - 1] + [s[|s| - 1]];
  }

  lemma {:induction false} StripLeftTrims(s: string) returns (before: string)
    ensures s == before + StripLeft(s) && Blank(before)
  {
    before := "";
    if s != "" && IsSpace(s[0]) {
      var rest := StripLeftTrims(s[1..]);
      PutInFront(s, rest, StripLeft(s[1..]));
      before := [s[0]] + rest;
    }
  }

  lemma {:induction false} StripRightTrims(s: string) returns (after: string)
    ensures s == StripRight(s) + after && Blank(after)
  {
    after := "";
    if s != "" && IsSpace(s[|s| - 1]) {
      var rest := StripRightTrims(s[..|s| - 1]);
      PutBehind(s, StripRight(s[..|s| - 1]), rest);
      after := rest + [s[|s| - 1]];
    }
  }

  lemma {:induction false} StripRightKeepsFirst(s: string)
    ensures StripRight(s) != "" ==> StripRight(s)[0] == s[0]
  {
    if s != "" && IsSpace(s[|s| - 1]) {
      StripRightKeepsFirst(s[..|s| - 1]);
    }
  }

  lemma LowerIsSmall(raw: string)
    ensures InSmallLetters(raw, Lower(raw))
  {
  }

  lemma JoinedAgain(text: string, before: string, left: string, raw: string, after: string)
    requires text == before + left && left == raw + after
    ensures text == before + raw + after
  {
  }

  lemma StripTrims(text: string)
    ensures Trimmed(text, Strip(text))
  {
    var left := StripLeft(text);
    var before := StripLeftTrims(text);
    var after := StripRightTrims(left);
    StripRightKeepsFirst(left);
    JoinedAgain(text, before, left, Strip(text), after);
  }

  // ------------------------------------------------------------------
  // The day it names
  // ------------------------------------------------------------------

  predicate SaysDayAfter(s: string) {
    Has(s, "day after tomorrow") || Has(s, "day after tmrw")
  }

  predicate SaysTomorrow(s: string) {
    || Says(s, "tomorrow") || Says(s, "tomorow") || Says(s, "tommorow")
    || Says(s, "tmrw") || Says(s, "tmr") || Says(s, "kal")
  }

  predicate SaysToday(s: string) {
    Says(s, "today") || Says(s, "aaj") || Says(s, "tonight")
  }

  predicate SaysWeekday(s: string, w: int) {
    match w
    case 0 => Says(s, "monday") || Says(s, "mon")
    case 1 => Says(s, "tuesday") || Says(s, "tue") || Says(s, "tues")
    case 2 => Says(s, "wednesday") || Says(s, "wed")
    case 3 => Says(s, "thursday") || Says(s, "thu") || Says(s, "thur") || Says(s, "thurs")
    case 4 => Says(s, "friday") || Says(s, "fri")
    case 5 => Says(s, "saturday") || Says(s, "sat")
    case 6 => Says(s, "sunday") || Says(s, "sun")
    case _ => false
  }

  predicate Falls(d: Ordinal, day: nat, month: int) {
    DateOf(d).day == day && DateOf(d).month == month
  }

  /** The first day from today on with this day and month, this year or the next; this year must have
  such a day at all, which only the 29th of February is without at times. */
  ghost predicate Coming(day: nat, month: int, today: Ordinal, d: Ordinal) {
    var year := DateOf(today).year;
    && IsDate(Date(year, month, day)) && today <= d && Falls(d, day, month) && DateOf(d).year <= year + 1
    && forall k: Ordinal :: today <= k < d ==> !Falls(k, day, month)
  }

  /** Day before month; with a year, in two figures or more, exactly that date. */
  ghost predicate NumericDay(x: NumericDate, today: Ordinal, d: Ordinal) {
    match x.year
    case None => Coming(x.day, x.month, today, d)
    case Some(y) => DateOf(d) == Date(if y < 100 then 2000 + y else y, x.month, x.day)
  }

  ghost predicate NumericGives(s: string, today: Ordinal, d: Ordinal) {
    exists x: NumericDate :: First(NumericHere, s, x) && NumericDay(x, today, d)
  }

  ghost predicate DayMonthGives(s: string, today: Ordinal, d: Ordinal) {
    exists x: DayMonth :: First(DayMonthHere, s, x) && Coming(x.day, x.month, today, d)
  }

  ghost predicate MonthDayGives(s: string, today: Ordinal, d: Ordinal) {
    exists x: DayMonth :: First(MonthDayHere, s, x) && Coming(x.day, x.month, today, d)
  }

  /** The next such weekday, a week ahead when it is that day today. */
  ghost predicate WeekdayGives(s: string, today: Ordinal, d: Ordinal) {
    && today < d && SaysWeekday(s, Weekday(d)) && (forall w :: 0 <= w < Weekday(d) ==> !SaysWeekday(s, w))
    && forall k: Ordinal :: today < k < d ==> Weekday(k) != Weekday(d)
  }

  /** The first that gives a day: figures, then a month in letters after or before, then a weekday. */
  ghost predicate NamesCalendarDay(s: string, today: Ordinal, d: Ordinal) {
    if exists k: Ordinal :: NumericGives(s, today, k) then NumericGives(s, today, d)
    else if exists k: Ordinal :: DayMonthGives(s, today, k) then DayMonthGives(s, today, d)
    else if exists k: Ordinal :: MonthDayGives(s, today, k) then MonthDayGives(s, today, d)
    else WeekdayGives(s, today, d)
  }

  /** The reply names day d. */
  ghost predicate NamesDay(s: string, today: Ordinal, d: Ordinal) {
    if SaysDayAfter(s) then d == today + 2
    else if SaysTomorrow(s) then d == today + 1
    else if SaysToday(s) then d == today
    else NamesCalendarDay(s, today, d)
  }

  lemma FallsWhen(d: Ordinal, day: nat, month: int)
    ensures Falls(d, day, month) <==>
      IsDate(Date(DateOf(d).year, month, day)) && d == ToOrdinal(Date(DateOf(d).year, month, day))
  {
    if IsDate(Date(DateOf(d).year, month, day)) && d == ToOrdinal(Date(DateOf(d).year, month, day)) {
      DateOfToOrdinal(Date(DateOf(d).year, month, day));
    }
  }

  /** Between a date and its next anniversary there is no other. */
  lemma YearsOrderDays(a: Ordinal, b: Ordinal)
    requires a <= b
    ensures DateOf(a).year <= DateOf(b).year
  {
    OrdinalOrder(DateOf(b), DateOf(a));
  }

  lemma SameYearSameDay(a: Ordinal, b: Ordinal)
    requires DateOf(a).year == DateOf(b).year && DateOf(a).month == DateOf(b).month && DateOf(a).day == DateOf(b).day
    ensures a == b
  {
    OrdinalOrder(DateOf(a), DateOf(b));
  }

  lemma ReadingFalls(day: nat, month: int, today: Ordinal) returns (d: Ordinal)
    requires FromDayMonth(day, month, today).Some?
    ensures d == FromDayMonth(day, month, today).value && today <= d && Falls(d, day, month)
    ensures IsDate(Date(DateOf(today).year, month, day))
    ensures || DateOf(d).year == DateOf(today).year
            || (DateOf(d).year == DateOf(today).year + 1 && ToOrdinal(Date(DateOf(today).year, month, day)) < today)
  {
    d := FromDayMonth(day, month, today).value;
    var date := Date(DateOf(today).year, month, day);
    if today <= ToOrdinal(date) {
      DateOfToOrdinal(date);
    } else {
      NextYearIsLater(date, today);
    }
  }

  lemma NextYearIsLater(date: Date, today: Ordinal)
    requires DateOf(today).year == date.year && IsDate(Date(date.year + 1, date.month, date.day))
    ensures var next := Date(date.year + 1, date.month, date.day);
      today <= ToOrdinal(next) && DateOf(ToOrdinal(next)) == next
  {
    var next := Date(date.year + 1, date.month, date.day);
    DateOfToOrdinal(next);
    OrdinalOrder(DateOf(today), next);
  }

  lemma NoneBetween(day: nat, month: int, today: Ordinal, d: Ordinal, k: Ordinal)
    requires today <= k < d && Falls(d, day, month)
    requires || DateOf(d).year == DateOf(today).year
             || (DateOf(d).year == DateOf(today).year + 1 && IsDate(Date(DateOf(today).year, month, day))
                 && ToOrdinal(Date(DateOf(today).year, month, day)) < today)
    ensures !Falls(k, day, month)
  {
    YearsOrderDays(today, k);
    YearsOrderDays(k, d);
    if Falls(k, day, month) {
      if DateOf(k).year == DateOf(d).year {
        SameYearSameDay(k, d);
      } else {
        FallsWhen(k, day, month);
      }
    }
  }

  lemma ReadingIsComing(day: nat, month: int, today: Ordinal)
    requires FromDayMonth(day, month, today).Some?
    ensures Coming(day, month, today, FromDayMonth(day, month, today).value)
  {
    var d := ReadingFalls(day, month, today);
    forall k: Ordinal | today <= k < d ensures !Falls(k, day, month) {
      NoneBetween(day, month, today, d, k);
    }
  }

  lemma ComingIsUnique(day: nat, month: int, today: Ordinal, d: Ordinal, e: Ordinal)
    requires Coming(day, month, today, d) && Coming(day, month, today, e)
    ensures d == e
  {
  }

  lemma ThisYearIsRead(day: nat, month: int, today: Ordinal)
    requires IsDate(Date(DateOf(today).year, month, day)) && today <= ToOrdinal(Date(DateOf(today).year, month, day))
    ensures FromDayMonth(day, month, today).Some?
  {
  }

  lemma NextYearIsRead(day: nat, month: int, today: Ordinal)
    requires IsDate(Date(DateOf(today).year, month, day)) && IsDate(Date(DateOf(today).year + 1, month, day))
    ensures FromDayMonth(day, month, today).Some?
  {
  }

  lemma ComingIsRead(day: nat, month: int, today: Ordinal, d: Ordinal)
    requires Coming(day, month, today, d)
    ensures FromDayMonth(day, month, today) == Some(d)
  {
    FallsWhen(d, day, month);
    YearsOrderDays(today, d);
    if DateOf(d).year == DateOf(today).year {
      ThisYearIsRead(day, month, today);
    } else {
      NextYearIsRead(day, month, today);
    }
    ReadingIsComing(day, month, today);
    ComingIsUnique(day, month, today, d, FromDayMonth(day, month, today).value);
  }

  lemma DayMonthMeansComing(day: nat, month: int, today: Ordinal, d: Ordinal)
    ensures FromDayMonth(day, month, today) == Some(d) <==> Coming(day, month, today, d)
  {
    if FromDayMonth(day, month, today).Some? {
      ReadingIsComing(day, month, today);
    }
    if Coming(day, month, today, d) {
      ComingIsRead(day, month, today, d);
    }
  }

  lemma DatedMeans(date: Date, d: Ordinal)
    ensures DateOf(d) == date <==> IsDate(date) && d == ToOrdinal(date)
  {
    if IsDate(date) {
      DateOfToOrdinal(date);
    }
  }

  lemma YearDayMeans(x: NumericDate, today: Ordinal, date: Date)
    requires x.year.Some?
    requires date == Date(if x.year.value < 100 then 2000 + x.year.value else x.year.value, x.month, x.day)
    ensures FromNumericDate(x, today) == if IsDate(date) then Some(ToOrdinal(date)) else None
  {
  }

  lemma NumericDayMeans(x: NumericDate, today: Ordinal, d: Ordinal)
    ensures FromNumericDate(x, today) == Some(d) <==> NumericDay(x, today, d)
  {
    if x.year.Some? {
      var date := Date(if x.year.value < 100 then 2000 + x.year.value else x.year.value, x.month, x.day);
      YearDayMeans(x, today, date);
      DatedMeans(date, d);
    } else {
      DayMonthMeansComing(x.day, x.month, today, d);
    }
  }

  lemma NumericMeans(s: string, today: Ordinal, d: Ordinal)
    ensures NumericReading(Search(NumericDateAt, s, 0), today) == Some(d) <==> NumericGives(s, today, d)
  {
    forall x: NumericDate
      ensures Search(NumericDateAt, s, 0) == Some(x) <==> First(NumericHere, s, x)
      ensures FromNumericDate(x, today) == Some(d) <==> NumericDay(x, today, d)
    {
      NumericExact(s, x);
      NumericDayMeans(x, today, d);
    }
  }

  lemma DayMonthMeansDay(s: string, today: Ordinal, d: Ordinal)
    ensures DayMonthReading(Search(DayMonthAt, s, 0), today) == Some(d) <==> DayMonthGives(s, today, d)
  {
    forall x ensures Search(DayMonthAt, s, 0) == Some(x) <==> First(DayMonthHere, s, x) { DayMonthExact(s, x); }
    forall x: DayMonth ensures FromDayMonth(x.day, x.month, today) == Some(d) <==> Coming(x.day, x.month, today, d) {
      DayMonthMeansComing(x.day, x.month, today, d);
    }
  }

  lemma MonthDayMeansDay(s: string, today: Ordinal, d: Ordinal)
    ensures DayMonthReading(Search(MonthDayAt, s, 0), today) == Some(d) <==> MonthDayGives(s, today, d)
  {
    forall x ensures Search(MonthDayAt, s, 0) == Some(x) <==> First(MonthDayHere, s, x) { MonthDayExact(s, x); }
    forall x: DayMonth ensures FromDayMonth(x.day, x.month, today) == Some(d) <==> Coming(x.day, x.month, today, d) {
      DayMonthMeansComing(x.day, x.month, today, d);
    }
  }

  lemma SaysTheWeekday(s: string, w: int)
    ensures SaysWeekday(s, w) <==>
      match w
      case 0 => ContainsAnyWord(s, ["monday", "mon"])
      case 1 => ContainsAnyWord(s, ["tuesday", "tue", "tues"])
      case 2 => ContainsAnyWord(s, ["wednesday", "wed"])
      case 3 => ContainsAnyWord(s, ["thursday", "thu", "thur", "thurs"])
      case 4 => ContainsAnyWord(s, ["friday", "fri"])
      case 5 => ContainsAnyWord(s, ["saturday", "sat"])
      case 6 => ContainsAnyWord(s, ["sunday", "sun"])
      case _ => false
  {
    forall w ensures Says(s, w) <==> ContainsWord(s, w) { SaysContainsWord(s, w); }
  }

  /** The first weekday of the week that the reply names. */
  lemma WeekdayNamedMeans(s: string, w: int)
    ensures WeekdayNamed(s) == Some(w) <==> SaysWeekday(s, w) && forall v :: 0 <= v < w ==> !SaysWeekday(s, v)
  {
    SaysTheWeekday(s, 0);
    SaysTheWeekday(s, 1);
    SaysTheWeekday(s, 2);
    SaysTheWeekday(s, 3);
    SaysTheWeekday(s, 4);
    SaysTheWeekday(s, 5);
    SaysTheWeekday(s, 6);
  }

  lemma RemainderIs(n: int, q: int, w: int)
    requires n == 7 * q + w && 0 <= w < 7
    ensures n % 7 == w
  {
  }

  lemma DayAfterDay(n: Ordinal)
    ensures Weekday(n + 1) == if Weekday(n) == 6 then 0 else Weekday(n) + 1
  {
    var q, w := (n + 6) / 7, (n + 6) % 7;
    RemainderIs(n + 7, if w == 6 then q + 1 else q, if w == 6 then 0 else w + 1);
  }

  lemma WholeWeeksBefore(year: int)
    requires year == 2024
    ensures DaysBeforeYear(year) % 7 == 0
  {
    assert (year - 1) / 4 == 505 && (year - 1) / 100 == 20 && (year - 1) / 400 == 5;
    assert DaysBeforeYear(year) == 7 * 105_555;
  }

  lemma FirstOfYear(d: Date)
    requires 1 <= d.year && d.month == 1 && d.day == 1
    ensures IsDate(d) && ToOrdinal(d) == DaysBeforeYear(d.year) + 1
  {
  }

  /** The days of the week follow one another, and this one was a Monday. */
  lemma WeekdaysRun(n: Ordinal, newYear: Date)
    requires newYear == Date(2024, 1, 1)
    ensures Weekday(n + 1) == if Weekday(n) == 6 then 0 else Weekday(n) + 1
    ensures IsDate(newYear) && Weekday(ToOrdinal(newYear)) == 0
  {
    DayAfterDay(n);
    FirstOfYear(newYear);
    WholeWeeksBefore(newYear.year);
  }

  lemma NextWeekdayIsNext(today: Ordinal, w: int)
    requires 0 <= w < 7
    ensures var d := NextWeekday(today, w);
      today < d && Weekday(d) == w && forall k: Ordinal :: today < k < d ==> Weekday(k) != w
  {
  }

  lemma WeekdayMeans(s: string, today: Ordinal, d: Ordinal)
    ensures WeekdayReading(WeekdayNamed(s), today) == Some(d) <==> WeekdayGives(s, today, d)
  {
    WeekdayNamedMeans(s, Weekday(d));
    if WeekdayNamed(s).Some? {
      WeekdayNamedMeans(s, WeekdayNamed(s).value);
      NextWeekdayIsNext(today, WeekdayNamed(s).value);
    }
  }

  lemma RelativeMeans(s: string)
    ensures SaysDayAfter(s) <==> Contains(s, "day after tomorrow") || Contains(s, "day after tmrw")
    ensures SaysTomorrow(s) <==> ContainsAnyWord(s, TOMORROW_WORDS)
    ensures SaysToday(s) <==> ContainsAnyWord(s, TODAY_WORDS)
  {
    forall w ensures Has(s, w) <==> Contains(s, w) { HasContains(s, w); }
    forall w ensures Says(s, w) <==> ContainsWord(s, w) { SaysContainsWord(s, w); }
  }

  lemma CalendarMeans(s: string, today: Ordinal, d: Ordinal)
    ensures CalendarDate(s, today) == Some(d) <==> NamesCalendarDay(s, today, d)
  {
    var numeric := NumericReading(Search(NumericDateAt, s, 0), today);
    var dayMonth := DayMonthReading(Search(DayMonthAt, s, 0), today);
    var monthDay := DayMonthReading(Search(MonthDayAt, s, 0), today);
    forall k: Ordinal
      ensures numeric == Some(k) <==> NumericGives(s, today, k)
      ensures dayMonth == Some(k) <==> DayMonthGives(s, today, k)
      ensures monthDay == Some(k) <==> MonthDayGives(s, today, k)
    {
      NumericMeans(s, today, k);
      DayMonthMeansDay(s, today, k);
      MonthDayMeansDay(s, today, k);
    }
    WeekdayMeans(s, today, d);
    assert numeric.Some? <==> exists k: Ordinal :: NumericGives(s, today, k) by {
      if numeric.Some? { assert NumericGives(s, today, numeric.value); }
    }
    assert dayMonth.Some? <==> exists k: Ordinal :: DayMonthGives(s, today, k) by {
      if dayMonth.Some? { assert DayMonthGives(s, today, dayMonth.value); }
    }
    assert monthDay.Some? <==> exists k: Ordinal :: MonthDayGives(s, today, k) by {
      if monthDay.Some? { assert MonthDayGives(s, today, monthDay.value); }
    }
  }

  lemma RelativeFirst(s: string, today: Ordinal)
    ensures SaysDayAfter(s) ==> ParseDate(s, today) == Some(today + 2)
    ensures !SaysDayAfter(s) && SaysTomorrow(s) ==> ParseDate(s, today) == Some(today + 1)
    ensures !SaysDayAfter(s) && !SaysTomorrow(s) && SaysToday(s) ==> ParseDate(s, today) == Some(today)
    ensures !SaysDayAfter(s) && !SaysTomorrow(s) && !SaysToday(s) ==> ParseDate(s, today) == CalendarDate(s, today)
  {
    RelativeMeans(s);
  }

  lemma OneOfFour(
      reading: Option<Ordinal>, calendar: Option<Ordinal>, today: Ordinal, d: Ordinal,
      after: bool, tomorrow: bool, todays: bool, named: bool)
    requires reading == if after then Some(today + 2) else if tomorrow then Some(today + 1)
                        else if todays then Some(today) else calendar
    requires calendar == Some(d) <==> named
    ensures reading == Some(d) <==>
      if after then d == today + 2 else if tomorrow then d == today + 1 else if todays then d == today else named
  {
  }

  /** The parser finds the day that the reply names. */
  lemma DayIsNamed(s: string, today: Ordinal, d: Ordinal)
    ensures ParseDate(s, today) == Some(d) <==> NamesDay(s, today, d)
  {
    RelativeFirst(s, today);
    CalendarMeans(s, today, d);
    OneOfFour(ParseDate(s, today), CalendarDate(s, today), today, d,
              SaysDayAfter(s), SaysTomorrow(s), SaysToday(s), NamesCalendarDay(s, today, d));
  }

  // ------------------------------------------------------------------
  // The time it names
  // ------------------------------------------------------------------

  function Clocked(hour: int, minute: int): int {
    (60 * hour + minute) * 60_000_000
  }

  /** A clock time as said: twelve at night is 0, twelve noon 12, and the afternoon adds twelve. */
  predicate ClockGives(x: Clock, t: TimeOfDay) {
    var hour :=
      if x.meridiem == Some(Pm) && x.hour < 12 then x.hour + 12
      else if x.meridiem == Some(Am) && x.hour == 12 then 0
      else x.hour;
    hour < 24 && x.minute < 60 && t == Clocked(hour, x.minute)
  }

  /** A bare hour is the morning's unless the office is closed then and open twelve hours later. */
  predicate HourGives(v: Validator, hour: nat, t: TimeOfDay) {
    && hour < 24
    && t == if !(v.open <= Clocked(hour, 0) <= v.close) && hour < 12 && v.open <= Clocked(hour + 12, 0) <= v.close
            then Clocked(hour + 12, 0) else Clocked(hour, 0)
  }

  predicate SaysVague(s: string) {
    || Has(s, "morning") || Has(s, "noon") || Has(s, "midday") || Has(s, "lunch")
    || Has(s, "evening") || Has(s, "night")
  }

  /** What the vague words stand for; an afternoon has "noon" in it. */
  predicate VagueGives(s: string, t: TimeOfDay) {
    if Has(s, "morning") then t == Clocked(11, 30)
    else if Has(s, "noon") || Has(s, "midday") then t == Clocked(12, 0)
    else if Has(s, "lunch") then t == Clocked(13, 0)
    else if Has(s, "evening") then t == Clocked(17, 30)
    else Has(s, "night") && t == Clocked(18, 30)
  }

  /** The whole reply is a number. */
  predicate OnlyNumber(s: string) {
    1 <= |s| <= 2 && Digits(s, 0, |s|)
  }

  /** With no clock time in it: an o'clock hour, a vague word, an hour after a preposition, a lone number. */
  ghost predicate NamesLooseTime(v: Validator, s: string, t: TimeOfDay) {
    if Somewhere(OClockHere, s) then exists hour: nat :: First(OClockHere, s, hour) && HourGives(v, hour, t)
    else if SaysVague(s) then VagueGives(s, t)
    else if Somewhere(BareHourHere, s) then exists hour: nat :: First(BareHourHere, s, hour) && HourGives(v, hour, t)
    else OnlyNumber(s) && HourGives(v, Number(s, 0, |s|), t)
  }

  /** The reply names time t: hour and minutes count first, then an hour with its half of the day. */
  ghost predicate NamesTime(v: Validator, s: string, t: TimeOfDay) {
    if Somewhere(HourMinuteHere, s) then exists x: Clock :: First(HourMinuteHere, s, x) && ClockGives(x, t)
    else if Somewhere(HourHalfHere, s) then exists x: Clock :: First(HourHalfHere, s, x) && ClockGives(x, t)
    else NamesLooseTime(v, s, t)
  }

  lemma ClockMeans(x: Clock, t: TimeOfDay)
    ensures ClockReading(x) == Some(t) <==> ClockGives(x, t)
  {
  }

  lemma HourMeans(v: Validator, hour: nat, t: TimeOfDay)
    ensures v.FullHour(hour) == Some(t) <==> HourGives(v, hour, t)
  {
  }

  lemma AfternoonIsNoon(s: string)
    ensures Has(s, "afternoon") ==> Has(s, "noon")
  {
    if Has(s, "afternoon") {
      var i: nat :| i <= |s| && Starts(s, i, "afternoon");
      forall k | 0 <= k < 4 ensures s[i + 5 + k] == "noon"[k] {
        assert "afternoon"[5 + k] == "noon"[k];
      }
      assert Starts(s, i + 5, "noon");
    }
  }

  lemma VagueMeans(s: string, t: TimeOfDay)
    ensures VagueTime(s).Some? <==> SaysVague(s)
    ensures SaysVague(s) ==> (VagueTime(s) == Some(t) <==> VagueGives(s, t))
  {
    forall w ensures Has(s, w) <==> Contains(s, w) { HasContains(s, w); }
    AfternoonIsNoon(s);
  }

  lemma OClockMeans(v: Validator, s: string, t: TimeOfDay)
    ensures Search(OClockAt, s, 0).Some? <==> Somewhere(OClockHere, s)
    ensures Search(OClockAt, s, 0).Some? ==>
      (v.FullHour(Search(OClockAt, s, 0).value) == Some(t)
       <==> exists hour: nat :: First(OClockHere, s, hour) && HourGives(v, hour, t))
  {
    OClockExact(s, 0);
    forall hour: nat
      ensures Search(OClockAt, s, 0) == Some(hour) <==> First(OClockHere, s, hour)
      ensures v.FullHour(hour) == Some(t) <==> HourGives(v, hour, t)
    {
      OClockExact(s, hour);
      HourMeans(v, hour, t);
    }
  }

  lemma BareHourMeans(v: Validator, s: string, t: TimeOfDay)
    ensures Search(BareHourAt, s, 0).Some? <==> Somewhere(BareHourHere, s)
    ensures Search(BareHourAt, s, 0).Some? ==>
      (v.FullHour(Search(BareHourAt, s, 0).value) == Some(t)
       <==> exists hour: nat :: First(BareHourHere, s, hour) && HourGives(v, hour, t))
  {
    BareHourExact(s, 0);
    forall hour: nat
      ensures Search(BareHourAt, s, 0) == Some(hour) <==> First(BareHourHere, s, hour)
      ensures v.FullHour(hour) == Some(t) <==> HourGives(v, hour, t)
    {
      BareHourExact(s, hour);
      HourMeans(v, hour, t);
    }
  }

  lemma NumberMeans(s: string)
    ensures OnlyNumber(s) <==> 1 <= |s| <= 2 && DigitRun(s, 0) == |s|
  {
    if OnlyNumber(s) {
      RunOfDigits(s, 0, |s|);
    }
    RunIsDigits(s, 0);
  }

  lemma LooseTimeIsNamed(v: Validator, s: string, t: TimeOfDay)
    ensures v.LooseTime(s) == Some(t) <==> NamesLooseTime(v, s, t)
  {
    OClockMeans(v, s, t);
    VagueMeans(s, t);
    BareHourMeans(v, s, t);
    NumberMeans(s);
    if OnlyNumber(s) {
      HourMeans(v, Number(s, 0, |s|), t);
    }
  }

  lemma HourMinuteMeans(s: string, t: TimeOfDay)
    ensures Search(HourMinuteAt, s, 0).Some? <==> Somewhere(HourMinuteHere, s)
    ensures Search(HourMinuteAt, s, 0).Some? ==>
      (ClockReading(Search(HourMinuteAt, s, 0).value) == Some(t)
       <==> exists x: Clock :: First(HourMinuteHere, s, x) && ClockGives(x, t))
  {
    HourMinuteExact(s, Clock(0, 0, None));
    forall x: Clock
      ensures Search(HourMinuteAt, s, 0) == Some(x) <==> First(HourMinuteHere, s, x)
      ensures ClockReading(x) == Some(t) <==> ClockGives(x, t)
    {
      HourMinuteExact(s, x);
      ClockMeans(x, t);
    }
  }

  lemma HourHalfMeans(s: string, t: TimeOfDay)
    ensures Search(HourMeridiemAt, s, 0).Some? <==> Somewhere(HourHalfHere, s)
    ensures Search(HourMeridiemAt, s, 0).Some? ==>
      (ClockReading(Search(HourMeridiemAt, s, 0).value) == Some(t)
       <==> exists x: Clock :: First(HourHalfHere, s, x) && ClockGives(x, t))
  {
    HourHalfExact(s, Clock(0, 0, None));
    forall x: Clock
      ensures Search(HourMeridiemAt, s, 0) == Some(x) <==> First(HourHalfHere, s, x)
      ensures ClockReading(x) == Some(t) <==> ClockGives(x, t)
    {
      HourHalfExact(s, x);
      ClockMeans(x, t);
    }
  }

  /** The parser finds the time that the reply names. */
  lemma TimeIsNamed(v: Validator, s: string, t: TimeOfDay)
    ensures v.ParseTime(s) == Some(t) <==> NamesTime(v, s, t)
  {
    HourMinuteMeans(s, t);
    HourHalfMeans(s, t);
    LooseTimeIsNamed(v, s, t);
  }

  // ------------------------------------------------------------------
  // What is booked
  // ------------------------------------------------------------------

  predicate SaysAsap(s: string) {
    || Has(s, "asap") || Has(s, "anytime") || Has(s, "any time")
    || Has(s, "as soon as possible") || Has(s, "right now") || Has(s, "immediately")
  }

  lemma AsapMeans(s: string)
    ensures SaysAsap(s) <==> ContainsAny(s, ASAP_WORDS)
  {
    forall w ensures Has(s, w) <==> Contains(s, w) { HasContains(s, w); }
  }

  /** The day of a time without one: today while it can still be reached in opening hours, else the
  next open day. */
  predicate ImpliedDay(v: Validator, t: TimeOfDay, reference: Moment, day: Ordinal) {
    var today := reference.day;
    if OpenDay(v.closedWeekdays, today) && v.open <= t <= v.close
       && Instant(reference) + v.minLead <= Instant(Moment(today, t))
    then day == today
    else
      && today < day && OpenDay(v.closedWeekdays, day)
      && forall k: Ordinal :: today < k < day ==> !OpenDay(v.closedWeekdays, k)
  }

  lemma DayIsImplied(v: Validator, t: TimeOfDay, reference: Moment)
    requires v.Sane()
    ensures ImpliedDay(v, t, reference, v.ImplicitDate(t, reference))
  {
    MomentOrder(Plus(reference, v.minLead), Moment(reference.day, t));
    v.NextOpenDayIsOpen(reference.day + 1);
  }

  ghost predicate NamesADay(s: string, today: Ordinal) {
    exists d: Ordinal :: NamesDay(s, today, d)
  }

  ghost predicate NamesATime(v: Validator, s: string) {
    exists t: TimeOfDay :: NamesTime(v, s, t)
  }

  /** The day a reply stands for: the one it names, else one named before that is not past, else the
  implied one. */
  ghost predicate DayMeant(
      v: Validator, s: string, t: TimeOfDay, reference: Moment, assumed: Option<Ordinal>, day: Ordinal)
  {
    if NamesADay(s, reference.day) then NamesDay(s, reference.day, day)
    else if assumed.Some? && reference.day <= assumed.value then day == assumed.value
    else ImpliedDay(v, t, reference, day)
  }

  /** What may be booked: an open day, in opening hours, after the lead time, within the horizon. */
  predicate CanBe(v: Validator, at: Moment, reference: Moment) {
    && OpenDay(v.closedWeekdays, at.day) && v.open <= at.us <= v.close
    && Instant(reference) + v.minLead <= Instant(at) <= Instant(reference) + Days(v.maxDaysAhead)
  }

  lemma NamedDays(s: string, today: Ordinal)
    ensures ParseDate(s, today).Some? <==> NamesADay(s, today)
    ensures ParseDate(s, today).Some? ==> NamesDay(s, today, ParseDate(s, today).value)
  {
    forall d: Ordinal ensures ParseDate(s, today) == Some(d) <==> NamesDay(s, today, d) { DayIsNamed(s, today, d); }
    if ParseDate(s, today).Some? {
      assert NamesDay(s, today, ParseDate(s, today).value);
    }
  }

  lemma NamedTimes(v: Validator, s: string)
    ensures v.ParseTime(s).Some? <==> NamesATime(v, s)
    ensures v.ParseTime(s).Some? ==> NamesTime(v, s, v.ParseTime(s).value)
  {
    forall t: TimeOfDay ensures v.ParseTime(s) == Some(t) <==> NamesTime(v, s, t) { TimeIsNamed(v, s, t); }
    if v.ParseTime(s).Some? {
      assert NamesTime(v, s, v.ParseTime(s).value);
    }
  }

  /** Why a moment is refused: the first of these that is true of it. */
  predicate RefusedFor(v: Validator, at: Moment, reference: Moment, reason: Reason) {
    var now, moment := Instant(reference), Instant(at);
    reason ==
      if moment < now then InPast
      else if moment < now + v.minLead then TooSoon
      else if now + Days(v.maxDaysAhead) < moment then TooFar
      else if !OpenDay(v.closedWeekdays, at.day) then ClosedDay
      else OutsideHours
  }

  lemma RefusedWhen(v: Validator, at: Moment, reference: Moment)
    ensures v.Refusal(at, reference).None? <==> CanBe(v, at, reference)
    ensures v.Refusal(at, reference).Some? ==> RefusedFor(v, at, reference, v.Refusal(at, reference).value)
  {
    MomentOrder(at, reference);
    MomentOrder(at, Plus(reference, v.minLead));
    MomentOrder(Plus(reference, Days(v.maxDaysAhead)), at);
  }

  /** The moment asked for is booked if it can be, else refused with its reason and the suggestions. */
  predicate Answered(v: Validator, raw: string, at: Moment, reference: Moment, r: ParseResult) {
    if CanBe(v, at, reference) then r.slot == Some(Slot(at, raw)) && r.reason.None? && r.suggestions == []
    else
      && r.slot.None? && r.suggestions == v.Suggestions(reference)
      && r.reason.Some? && RefusedFor(v, at, reference, r.reason.value)
  }

  /** What a reply that is not "as soon as possible" comes to. */
  ghost predicate Outcome(
      v: Validator, raw: string, s: string, reference: Moment, assumed: Option<Ordinal>, r: ParseResult)
  {
    if !NamesATime(v, s) then
      && r.slot.None? && r.reason == Some(if NamesADay(s, reference.day) then MissingTime else NotUnderstood)
      && (r.parsedDate.Some? <==> NamesADay(s, reference.day))
      && (r.parsedDate.Some? ==> NamesDay(s, reference.day, r.parsedDate.value))
    else
      exists at: Moment ::
        && NamesTime(v, s, at.us) && DayMeant(v, s, at.us, reference, assumed, at.day)
        && Answered(v, raw, at, reference, r)
        && r.parsedDate == if NamesADay(s, reference.day) || (assumed.Some? && reference.day <= assumed.value)
                           then Some(at.day) else None
  }

  lemma MeantDay(v: Validator, s: string, t: TimeOfDay, reference: Moment, assumed: Option<Ordinal>)
      returns (day: Ordinal)
    requires v.Sane()
    ensures DayMeant(v, s, t, reference, assumed, day)
    ensures day == if ParseDate(s, reference.day).Some? then ParseDate(s, reference.day).value
                   else if assumed.Some? && reference.day <= assumed.value then assumed.value
                   else v.ImplicitDate(t, reference)
    ensures ParseDate(s, reference.day).Some? <==> NamesADay(s, reference.day)
  {
    NamedDays(s, reference.day);
    DayIsImplied(v, t, reference);
    var named := ParseDate(s, reference.day);
    day := if named.Some? then named.value
           else if assumed.Some? && reference.day <= assumed.value then assumed.value
           else v.ImplicitDate(t, reference);
  }

  lemma TimedOutcome(v: Validator, text: string, reference: Moment, assumed: Option<Ordinal>) returns (at: Moment)
    requires v.Sane()
    requires var s := Lower(Strip(text)); s != "" && !ContainsAny(s, ASAP_WORDS) && v.ParseTime(s).Some?
    ensures var s, r := Lower(Strip(text)), v.Parse(text, reference, assumed);
      && at.us == v.ParseTime(s).value && DayMeant(v, s, at.us, reference, assumed, at.day)
      && Answered(v, Strip(text), at, reference, r)
      && r.parsedDate == if NamesADay(s, reference.day) || (assumed.Some? && reference.day <= assumed.value)
                         then Some(at.day) else None
  {
    var s := Lower(Strip(text));
    var day := MeantDay(v, s, v.ParseTime(s).value, reference, assumed);
    at := Moment(day, v.ParseTime(s).value);
    RefusedWhen(v, at, reference);
  }

  lemma OutcomeHolds(v: Validator, text: string, reference: Moment, assumed: Option<Ordinal>)
    requires v.Sane()
    requires var s := Lower(Strip(text)); s != "" && !ContainsAny(s, ASAP_WORDS)
    ensures Outcome(v, Strip(text), Lower(Strip(text)), reference, assumed, v.Parse(text, reference, assumed))
  {
    var s := Lower(Strip(text));
    NamedTimes(v, s);
    if v.ParseTime(s).Some? {
      var at := TimedOutcome(v, text, reference, assumed);
    } else {
      NamedDays(s, reference.day);
    }
  }

  /** What every reply means: nothing said is not understood, "as soon as possible" gets the next open
  slot, and any other gets the day and time it names, if that can be booked. */
  lemma ReplyMeans(v: Validator, text: string, reference: Moment, assumed: Option<Ordinal>)
      returns (raw: string, s: string)
    requires v.Sane()
    ensures Trimmed(text, raw) && InSmallLetters(raw, s)
    ensures var r := v.Parse(text, reference, assumed);
      if s == "" then r.slot.None? && r.reason == Some(NotUnderstood)
      else if SaysAsap(s) then r.slot == Some(Slot(v.NextOpenSlot(reference), raw))
      else Outcome(v, raw, s, reference, assumed, r)
  {
    raw, s := Strip(text), Lower(Strip(text));
    StripTrims(text);
    LowerIsSmall(raw);
    AsapMeans(s);
    if s != "" && !SaysAsap(s) {
      OutcomeHolds(v, text, reference, assumed);
    }
  }

  /** Without hour and minutes, an hour with its half of the day or an o'clock hour. */
  ghost predicate NoClockTime(s: string) {
    !Somewhere(HourMinuteHere, s) && !Somewhere(HourHalfHere, s) && !Somewhere(OClockHere, s)
  }

  /** A day as the words of a reply give it. */
  ghost predicate FallsAsSaid(s: string, today: Ordinal, day: Ordinal) {
    && (SaysDayAfter(s) ==> day == today + 2)
    && (!SaysDayAfter(s) && SaysTomorrow(s) ==> day == today + 1)
    && (!SaysDayAfter(s) && !SaysTomorrow(s) && SaysToday(s) ==> day == today)
    && (!SaysDayAfter(s) && !SaysTomorrow(s) && !SaysToday(s) ==>
          forall d: Ordinal :: NamesCalendarDay(s, today, d) ==> day == d)
  }

  lemma RelativeIsNamed(s: string, today: Ordinal)
    requires SaysDayAfter(s) || SaysTomorrow(s) || SaysToday(s)
    ensures NamesADay(s, today)
  {
    assert NamesDay(s, today, if SaysDayAfter(s) then today + 2 else if SaysTomorrow(s) then today + 1 else today);
  }

  lemma NamedOnce(s: string, today: Ordinal, d: Ordinal, e: Ordinal)
    requires NamesDay(s, today, d) && NamesDay(s, today, e)
    ensures d == e
  {
    DayIsNamed(s, today, d);
    DayIsNamed(s, today, e);
  }

  lemma MeantFallsAsSaid(
      v: Validator, s: string, t: TimeOfDay, reference: Moment, assumed: Option<Ordinal>, day: Ordinal)
    requires DayMeant(v, s, t, reference, assumed, day)
    ensures FallsAsSaid(s, reference.day, day)
  {
    var today := reference.day;
    if SaysDayAfter(s) || SaysTomorrow(s) || SaysToday(s) {
      RelativeIsNamed(s, today);
    } else {
      forall d: Ordinal | NamesCalendarDay(s, today, d) ensures day == d {
        assert NamesDay(s, today, d);
        NamedOnce(s, today, d, day);
      }
    }
  }

  lemma VagueWordCounts(v: Validator, s: string, t: TimeOfDay)
    requires NamesTime(v, s, t) && NoClockTime(s) && SaysVague(s)
    ensures VagueGives(s, t)
  {
  }

  /** Where a reply that was accepted falls, word by word. */
  lemma AcceptedReplyFalls(v: Validator, text: string, reference: Moment, assumed: Option<Ordinal>)
    requires v.Sane() && v.Parse(text, reference, assumed).slot.Some? && !SaysAsap(Lower(Strip(text)))
    ensures var s, at := Lower(Strip(text)), v.Parse(text, reference, assumed).slot.value.at;
      && FallsAsSaid(s, reference.day, at.day)
      && (NoClockTime(s) && SaysVague(s) ==> VagueGives(s, at.us))
      && CanBe(v, at, reference)
  {
    var s, r := Lower(Strip(text)), v.Parse(text, reference, assumed);
    AsapMeans(s);
    OutcomeHolds(v, text, reference, assumed);
    var at: Moment :|
      && NamesTime(v, s, at.us) && DayMeant(v, s, at.us, reference, assumed, at.day)
      && Answered(v, Strip(text), at, reference, r);
    MeantFallsAsSaid(v, s, at.us, reference, assumed, at.day);
    if NoClockTime(s) && SaysVague(s) {
      VagueWordCounts(v, s, at.us);
    }
  }

  // ------------------------------------------------------------------
  // What is suggested instead
  // ------------------------------------------------------------------

  predicate DailyTime(t: int) {
    t == Clocked(11, 30) || t == Clocked(14, 0) || t == Clocked(17, 0)
  }

  predicate InTime(v: Validator, day: Ordinal, t: TimeOfDay, reference: Moment) {
    Instant(reference) + v.minLead <= Instant(Moment(day, t))
  }

  /** The first of the day's times that the lead time allows. */
  predicate FirstInTime(v: Validator, at: Moment, reference: Moment) {
    && DailyTime(at.us) && InTime(v, at.day, at.us, reference)
    && forall t: TimeOfDay :: DailyTime(t) && t < at.us ==> !InTime(v, at.day, t, reference)
  }

  /** At 11:30 on the first open day from this day on. */
  predicate NextMorning(v: Validator, from: Ordinal, at: Moment) {
    && from <= at.day && OpenDay(v.closedWeekdays, at.day) && at.us == Clocked(11, 30)
    && forall k: Ordinal :: from <= k < at.day ==> !OpenDay(v.closedWeekdays, k)
  }

  /** Each on the next morning, one after the other. */
  predicate InTurn(v: Validator, from: Ordinal, slots: seq<Slot>)
    decreases |slots|
  {
    slots == [] || (NextMorning(v, from, slots[0].at) && InTurn(v, slots[0].at.day + 1, slots[1..]))
  }

  lemma OneMoreMorning(v: Validator, day: Ordinal, rest: seq<Slot>)
    requires OpenDay(v.closedWeekdays, day) && InTurn(v, day + 1, rest)
    ensures InTurn(v, day, [Slot(Moment(day, LATE_MORNING), "")] + rest)
  {
    assert ([Slot(Moment(day, LATE_MORNING), "")] + rest)[1..] == rest;
  }

  lemma ClosedDaySkipped(v: Validator, day: Ordinal, slots: seq<Slot>)
    requires !OpenDay(v.closedWeekdays, day) && InTurn(v, day + 1, slots)
    ensures InTurn(v, day, slots)
  {
    assert slots != [] ==> NextMorning(v, day, slots[0].at);
  }

  lemma {:induction false} MorningsInTurn(v: Validator, day: Ordinal, reference: Moment, count: nat, guard: nat)
    requires v.Sane() && Plus(reference, v.minLead).day < day
    ensures InTurn(v, day, v.SuggestionsFrom(day, reference, count, guard))
    decreases guard
  {
    if guard != 0 && count != 0 {
      if OpenDay(v.closedWeekdays, day) {
        assert v.SuggestionOn(day, reference) == Some(Moment(day, LATE_MORNING));
        MorningsInTurn(v, day + 1, reference, count - 1, guard - 1);
        OneMoreMorning(v, day, v.SuggestionsFrom(day + 1, reference, count - 1, guard - 1));
      } else {
        MorningsInTurn(v, day + 1, reference, count, guard - 1);
        ClosedDaySkipped(v, day, v.SuggestionsFrom(day + 1, reference, count, guard - 1));
      }
    }
  }

  lemma DayOffers(v: Validator, day: Ordinal, reference: Moment)
    ensures match v.SuggestionOn(day, reference)
            case Some(at) => at.day == day && FirstInTime(v, at, reference)
            case None => forall t: TimeOfDay :: DailyTime(t) ==> !InTime(v, day, t, reference)
  {
    forall t: TimeOfDay
      ensures AtOrBefore(Plus(reference, v.minLead), Moment(day, t)) <==> InTime(v, day, t, reference)
    {
      MomentOrder(Plus(reference, v.minLead), Moment(day, t));
    }
  }

  /** The suggestions: on the day of the next open slot the first of its times that the lead time
  allows, if there is one, and then 11:30 on one open day after the other, three in all. */
  lemma SuggestionsAreNext(v: Validator, reference: Moment)
    requires v.Sane()
    ensures var slots, day := v.Suggestions(reference), v.NextOpenSlot(reference).day;
      && |slots| == 3
      && if exists t: TimeOfDay :: DailyTime(t) && InTime(v, day, t, reference)
         then slots[0].at.day == day && FirstInTime(v, slots[0].at, reference) && InTurn(v, day + 1, slots[1..])
         else InTurn(v, day + 1, slots)
  {
    var day := v.NextOpenSlot(reference).day;
    SuggestionsShape(v, reference);
    SuggestionsSplit(v, reference);
    FirstDay(v, reference);
    DayOffers(v, day, reference);
    MorningsInTurn(v, day + 1, reference, 2, 29);
    MorningsInTurn(v, day + 1, reference, 3, 29);
    if v.SuggestionOn(day, reference).Some? {
      assert v.Suggestions(reference)[1..] == v.SuggestionsFrom(day + 1, reference, 2, 29);
    }
  }
}
