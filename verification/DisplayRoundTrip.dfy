/** Users copy a printed slot back into the chat. Reading it gives back the very same
moment exactly when the printed day and month - the year is not printed - still name
that date, which is always so within a horizon of 59 days. */
module DisplayRoundTrip {
  import opened Wrappers
  import opened Calendar
  import opened TimeText
  import opened CallbackTime
  import opened PrintedText

  // ------------------------------------------------------------------
  // What each pattern finds in the printed text
  // ------------------------------------------------------------------

  ghost predicate NoMatchAt(s: string, k: nat) {
    HourMinuteAt(s, k).None? && HourMeridiemAt(s, k).None? && NumericDateAt(s, k).None? && DayMonthAt(s, k).None?
  }

  lemma NoDigitNoMatch(s: string, k: nat)
    requires !DigitAt(s, k)
    ensures NoMatchAt(s, k)
  {
  }

  lemma InsideRunNoMatch(s: string, k: nat)
    requires 0 < k && DigitAt(s, k - 1) && DigitAt(s, k)
    ensures NoMatchAt(s, k)
  {
  }

  lemma HourMinuteMisses(s: string, k: nat)
    requires !CharAt(s, k + DigitRun(s, k), ":.")
    ensures HourMinuteAt(s, k).None?
  {
  }

  lemma NumericDateMisses(s: string, k: nat)
    requires !CharAt(s, k + DigitRun(s, k), "/-.")
    ensures NumericDateAt(s, k).None?
  {
  }

  lemma HourMeridiemMisses(s: string, k: nat)
    requires MeridiemAt(s, SkipSpaces(s, k + DigitRun(s, k))).None?
    ensures HourMeridiemAt(s, k).None?
  {
  }

  lemma HourMinuteOfHits(s: string, k: nat, n: nat, meridiem: Option<Meridiem>)
    requires Boundary(s, k) && 1 <= n <= 2 && CharAt(s, k + n, ":.") && meridiem.Some?
    requires DigitAt(s, k + n + 1) && DigitAt(s, k + n + 2) && forall i :: k <= i < k + n ==> DigitAt(s, i)
    ensures HourMinuteOf(s, k, n, meridiem) == Some(Clock(Number(s, k, n), Number(s, k + n + 1, 2), meridiem))
  {
  }

  lemma HourMinuteHits(s: string, k: nat, n: nat, z: nat)
    requires Boundary(s, k) && DigitRun(s, k) == n && 1 <= n <= 2 && CharAt(s, k + n, ":.")
    requires DigitAt(s, k + n + 1) && DigitAt(s, k + n + 2) && SkipSpaces(s, k + n + 3) == z
    requires MeridiemAt(s, z).Some?
    ensures HourMinuteAt(s, k) == Some(Clock(Number(s, k, n), Number(s, k + n + 1, 2), MeridiemAt(s, z)))
  {
    HourMinuteOfHits(s, k, n, MeridiemAt(s, z));
  }

  lemma HourMeridiemHits(s: string, k: nat, n: nat, z: nat)
    requires Boundary(s, k) && DigitRun(s, k) == n && 1 <= n <= 2 && SkipSpaces(s, k + n) == z
    requires MeridiemAt(s, z).Some?
    ensures HourMeridiemAt(s, k) == Some(Clock(Number(s, k, n), 0, MeridiemAt(s, z)))
  {
  }

  lemma DayMonthHits(months: map<string, int>, s: string, k: nat, n: nat, month: int)
    requires Boundary(s, k) && DigitRun(s, k) == n && 1 <= n <= 2
    requires CharAt(s, k + n, " ") && SkipSpaces(s, k + n) == k + n + 1
    requires MonthIn(months, s, k + n + 1) == Some(month)
    ensures DayMonthIn(months, s, k) == Some(DayMonth(Number(s, k, n), month))
  {
    assert OrdinalSuffix(s, k + n) == 0;
  }

  function MeridiemOf(hour: int): Meridiem {
    if hour < 12 then Am else Pm
  }

  lemma FinalMeridiem(s: string, z: nat, pm: bool)
    requires z + 2 == |s| && s[z] == (if pm then 'p' else 'a') && s[z + 1] == 'm'
    ensures MeridiemAt(s, z) == Some(if pm then Pm else Am)
  {
    assert Starts(s, z, if pm then "pm" else "am") && !Starts(s, z, if pm then "am" else "pm") by {
      assert "pm"[0] == 'p' && "pm"[1] == 'm' && "am"[0] == 'a' && "am"[1] == 'm';
    }
  }

  /** The numbers of the printed text, and where they stand. */
  ghost predicate Charted(q: Pieces, p: Printed, t: string) {
    0 <= p.hour < 24 && q.day != "" && q.hour != "" && DigitMap(q, p, t) && NumbersReadBack(q, p, t)
  }

  /** A position at which no pattern can start a match. */
  ghost predicate Quiet(t: string, k: nat) {
    !DigitAt(t, k) || (0 < k && DigitAt(t, k - 1))
  }

  lemma QuietNoMatch(t: string, k: nat)
    requires Quiet(t, k)
    ensures NoMatchAt(t, k)
  {
    if !DigitAt(t, k) {
      NoDigitNoMatch(t, k);
    } else {
      InsideRunNoMatch(t, k);
    }
  }

  /** Matches can start only at the day, the hour or the minutes. */
  lemma QuietElsewhere(q: Pieces, p: Printed, t: string, k: nat)
    requires Charted(q, p, t)
    ensures k != q.D0() && k != q.H0() && !(p.minute != 0 && k == q.H1() + 1) ==> Quiet(t, k)
  {
    if q.D0() < k < q.D1() || q.H0() < k < q.H1() {
      assert DigitAt(t, k - 1);
    } else if p.minute != 0 && k == q.H1() + 2 {
      assert DigitAt(t, q.H1() + 1);
    }
  }

  /** The numbers of the print are followed by a space, a colon or the end. */
  lemma NumericDateNotAt(q: Pieces, p: Printed, t: string, k: nat)
    requires Charted(q, p, t)
    ensures NumericDateAt(t, k).None?
  {
    QuietElsewhere(q, p, t, k);
    if Quiet(t, k) {
      QuietNoMatch(t, k);
    } else {
      NumericDateMisses(t, k);
    }
  }

  lemma NoNumericDate(q: Pieces, p: Printed, t: string)
    requires Charted(q, p, t)
    ensures Search(NumericDateAt, t, 0).None?
  {
    forall k: nat
      ensures NumericDateAt(t, k).None?
    {
      NumericDateNotAt(q, p, t, k);
    }
    SearchFails(NumericDateAt, t, 0);
  }

  lemma DayMonthNotBefore(q: Pieces, p: Printed, t: string)
    requires Charted(q, p, t)
    ensures forall k: nat :: k < q.D0() ==> DayMonthAt(t, k).None?
  {
    forall k: nat | k < q.D0()
      ensures DayMonthAt(t, k).None?
    {
      QuietElsewhere(q, p, t, k);
      QuietNoMatch(t, k);
    }
  }

  lemma DayMonthThere(q: Pieces, p: Printed, t: string)
    requires Charted(q, p, t)
    requires SkipSpaces(t, q.D1()) == q.D1() + 1 && MonthAt(t, q.D1() + 1) == Some(p.month)
    ensures DayMonthAt(t, q.D0()) == Some(DayMonth(p.day, p.month))
  {
    assert Boundary(t, q.D0());
    DayMonthHits(MONTHS, t, q.D0(), |q.day|, p.month);
  }

  lemma TheDayMonth(q: Pieces, p: Printed, t: string)
    requires Charted(q, p, t)
    requires SkipSpaces(t, q.D1()) == q.D1() + 1 && MonthAt(t, q.D1() + 1) == Some(p.month)
    ensures Search(DayMonthAt, t, 0) == Some(DayMonth(p.day, p.month))
  {
    DayMonthNotBefore(q, p, t);
    DayMonthThere(q, p, t);
    SearchFinds(DayMonthAt, t, 0, q.D0());
  }

  lemma EndOfText(q: Pieces, p: Printed, t: string)
    requires Charted(q, p, t)
    ensures SkipSpaces(t, q.Z0()) == q.Z0() + 1
    ensures MeridiemAt(t, q.Z0() + 1) == Some(MeridiemOf(p.hour))
  {
    assert SkipSpaces(t, q.Z0() + 1) == q.Z0() + 1;
    FinalMeridiem(t, q.Z0() + 1, p.hour >= 12);
  }

  lemma HourMinuteNotBefore(q: Pieces, p: Printed, t: string)
    requires Charted(q, p, t)
    ensures forall k: nat :: k < q.H0() ==> HourMinuteAt(t, k).None?
  {
    forall k: nat | k < q.H0()
      ensures HourMinuteAt(t, k).None?
    {
      QuietElsewhere(q, p, t, k);
      if k == q.D0() {
        HourMinuteMisses(t, k);
      } else {
        QuietNoMatch(t, k);
      }
    }
  }

  lemma TheHourMinute(q: Pieces, p: Printed, t: string)
    requires Charted(q, p, t) && p.minute != 0
    ensures Search(HourMinuteAt, t, 0) == Some(Clock(Hour12(p.hour), p.minute, Some(MeridiemOf(p.hour))))
  {
    HourMinuteNotBefore(q, p, t);
    HourMinuteThere(q, p, t);
    SearchFinds(HourMinuteAt, t, 0, q.H0());
  }

  lemma HourMinuteThere(q: Pieces, p: Printed, t: string)
    requires Charted(q, p, t) && p.minute != 0
    ensures HourMinuteAt(t, q.H0()) == Some(Clock(Hour12(p.hour), p.minute, Some(MeridiemOf(p.hour))))
  {
    HourThenMinutes(q, p, t);
    EndOfText(q, p, t);
    HourMinuteHits(t, q.H0(), |q.hour|, q.Z0() + 1);
  }

  lemma HourThenMinutes(q: Pieces, p: Printed, t: string)
    requires Charted(q, p, t) && p.minute != 0
    ensures Boundary(t, q.H0()) && CharAt(t, q.H0() + |q.hour|, ":.")
    ensures DigitAt(t, q.H0() + |q.hour| + 1) && DigitAt(t, q.H0() + |q.hour| + 2)
    ensures Number(t, q.H0() + |q.hour| + 1, 2) == p.minute && q.H0() + |q.hour| + 3 == q.Z0()
  {
    assert |TwoDigits(p.minute)| == 2;
    assert q.H0() + |q.hour| == q.H1();
  }

  lemma NoHourMinute(q: Pieces, p: Printed, t: string)
    requires Charted(q, p, t) && p.minute == 0
    ensures Search(HourMinuteAt, t, 0).None?
  {
    forall k: nat
      ensures HourMinuteAt(t, k).None?
    {
      QuietElsewhere(q, p, t, k);
      if Quiet(t, k) {
        QuietNoMatch(t, k);
      } else {
        HourMinuteMisses(t, k);
      }
    }
    SearchFails(HourMinuteAt, t, 0);
  }

  lemma TheFullHour(q: Pieces, p: Printed, t: string)
    requires Charted(q, p, t) && p.minute == 0
    requires SkipSpaces(t, q.D1()) == q.D1() + 1 && MeridiemAt(t, q.D1() + 1).None?
    ensures Search(HourMeridiemAt, t, 0) == Some(Clock(Hour12(p.hour), 0, Some(MeridiemOf(p.hour))))
  {
    HourMeridiemNotBefore(q, p, t);
    HourMeridiemThere(q, p, t);
    SearchFinds(HourMeridiemAt, t, 0, q.H0());
  }

  lemma HourMeridiemNotAt(q: Pieces, p: Printed, t: string, k: nat)
    requires Charted(q, p, t) && k < q.H0()
    requires SkipSpaces(t, q.D1()) == q.D1() + 1 && MeridiemAt(t, q.D1() + 1).None?
    ensures HourMeridiemAt(t, k).None?
  {
    if k == q.D0() {
      HourMeridiemMisses(t, k);
    } else {
      QuietElsewhere(q, p, t, k);
      QuietNoMatch(t, k);
    }
  }

  lemma HourMeridiemNotBefore(q: Pieces, p: Printed, t: string)
    requires Charted(q, p, t)
    requires SkipSpaces(t, q.D1()) == q.D1() + 1 && MeridiemAt(t, q.D1() + 1).None?
    ensures forall k: nat :: k < q.H0() ==> HourMeridiemAt(t, k).None?
  {
    forall k: nat | k < q.H0()
      ensures HourMeridiemAt(t, k).None?
    {
      HourMeridiemNotAt(q, p, t, k);
    }
  }

  lemma HourMeridiemThere(q: Pieces, p: Printed, t: string)
    requires Charted(q, p, t) && p.minute == 0
    ensures HourMeridiemAt(t, q.H0()) == Some(Clock(Hour12(p.hour), 0, Some(MeridiemOf(p.hour))))
  {
    EndOfText(q, p, t);
    assert Boundary(t, q.H0());
    HourMeridiemHits(t, q.H0(), |q.hour|, q.Z0() + 1);
  }

  // ------------------------------------------------------------------
  // The date and the time of the printed text
  // ------------------------------------------------------------------

  lemma PrintedIsCharted(p: Printed) returns (q: Pieces, t: string)
    requires p.Valid()
    ensures t == p.Text() && Charted(q, p, t)
    ensures SkipSpaces(t, q.D1()) == q.D1() + 1 && MeridiemAt(t, q.D1() + 1).None?
    ensures MonthAt(t, q.D1() + 1) == Some(p.month)
  {
    q, t := PiecesOf(p), p.Text();
    PiecesSpell(p);
    TextLayout(q);
    LayoutDigits(q, p, t);
    AllReadBack(q, p, t);
    MonthReadsBack(q, p, t);
    DecimalShape(p.day);
    DecimalShape(Hour12(p.hour));
  }

  lemma TwelveHourClock(hour: int)
    requires 0 <= hour < 24
    ensures ApplyMeridiem(Hour12(hour), Some(MeridiemOf(hour))) == hour
  {
  }

  lemma MinutesRead(v: Validator, q: Pieces, p: Printed, t: string)
    requires Charted(q, p, t) && p.minute != 0
    ensures v.ParseTime(t) == ClockTime(p.hour, p.minute)
  {
    TwelveHourClock(p.hour);
    TheHourMinute(q, p, t);
  }

  lemma FullHourRead(v: Validator, q: Pieces, p: Printed, t: string)
    requires Charted(q, p, t) && p.minute == 0
    requires SkipSpaces(t, q.D1()) == q.D1() + 1 && MeridiemAt(t, q.D1() + 1).None?
    ensures v.ParseTime(t) == ClockTime(p.hour, p.minute)
  {
    TwelveHourClock(p.hour);
    NoHourMinute(q, p, t);
    TheFullHour(q, p, t);
  }

  lemma TimeIsRead(v: Validator, q: Pieces, p: Printed, t: string)
    requires Charted(q, p, t)
    requires SkipSpaces(t, q.D1()) == q.D1() + 1 && MeridiemAt(t, q.D1() + 1).None?
    ensures v.ParseTime(t) == ClockTime(p.hour, p.minute)
  {
    if p.minute != 0 {
      MinutesRead(v, q, p, t);
    } else {
      FullHourRead(v, q, p, t);
    }
  }

  lemma TimeReadsBack(v: Validator, p: Printed)
    requires p.Valid()
    ensures v.ParseTime(p.Text()) == ClockTime(p.hour, p.minute)
  {
    var q, t := PrintedIsCharted(p);
    TimeIsRead(v, q, p, t);
  }

  lemma FullNameIsAWord(p: Printed)
    requires p.Valid()
    ensures ContainsWord(p.Text(), LowerWeekday(p.weekday))
  {
    var q, t, w := PiecesOf(p), p.Text(), LowerWeekday(p.weekday);
    TextLayout(q);
    PiecesSpell(p);
    WeekdayLetters(p.weekday);
    assert t[..|w|] == w;
    assert t[|w|] == q.left[|w|] == ',';
    assert WordAt(t, 0, w);
  }

  lemma WordRunEnds(s: string, i: nat, j: nat)
    requires i + WordRun(s, i) == j && i < j <= |s|
    ensures (forall k :: i <= k < j ==> IsWordChar(s[k])) && IsWordChar(s[j - 1])
    decreases j - i
  {
    if i + 1 < j {
      WordRunEnds(s, i + 1, j);
    }
  }

  /** No month stands before a number: the weekday is followed by a comma, "at" is no month. */
  lemma NoMonthDay(q: Pieces, p: Printed, t: string)
    requires Charted(q, p, t)
    ensures Search(MonthDayAt, t, 0).None?
  {
    forall k: nat
      ensures MonthDayAt(t, k).None?
    {
      if k <= |t| {
        NoMonthDayAt(q, p, t, k);
      }
    }
    SearchFails(MonthDayAt, t, 0);
  }

  /** A word, spaces and a digit in a row. */
  ghost predicate WordThenNumber(t: string, k: nat, w: nat, j: nat) {
    k < w == k + WordRun(t, k) < j == SkipSpaces(t, w) && DigitAt(t, j)
  }

  lemma MonthDayMisses(t: string, k: nat)
    requires k <= |t|
    requires var w := k + WordRun(t, k);
             WordThenNumber(t, k, w, SkipSpaces(t, w)) ==> MonthNumber(t[k..w]).None?
    ensures MonthDayAt(t, k).None?
  {
    var w := k + WordRun(t, k);
    var j := SkipSpaces(t, w);
    NotAMonth("");
    assert t[k..k] == "";
    NoMonthNoDay(t, k, MonthAt(t, k), w < j, j);
  }

  lemma NoMonthNoDay(t: string, k: nat, month: Option<int>, spaced: bool, j: nat)
    requires month.None? || !spaced || !DigitAt(t, j)
    ensures MonthDayOf(t, k, month, spaced, j, DigitRun(t, j)).None?
  {
  }

  lemma OnlyAtBeforeANumber(q: Pieces, p: Printed, t: string, k: nat, w: nat, j: nat)
    requires Charted(q, p, t) && WordThenNumber(t, k, w, j)
    ensures j <= |t| && MonthNumber(t[k..w]).None?
  {
    WordRunEnds(t, k, w);
    assert SpaceAt(t, j - 1);
    NumberAfterSpace(q, p, t, j);
    assert w < j - 1 ==> SpaceAt(t, j - 2);
    assert w == j - 1;
    assert j == q.H0();
    assert q.H0() - 3 <= k;
    NotAMonth(t[k..w]);
  }

  lemma NoMonthDayAt(q: Pieces, p: Printed, t: string, k: nat)
    requires Charted(q, p, t) && k <= |t|
    ensures MonthDayAt(t, k).None?
  {
    var w := k + WordRun(t, k);
    if WordThenNumber(t, k, w, SkipSpaces(t, w)) {
      OnlyAtBeforeANumber(q, p, t, k, w, SkipSpaces(t, w));
    }
    MonthDayMisses(t, k);
  }

  lemma NumberAfterSpace(q: Pieces, p: Printed, t: string, j: nat)
    requires Charted(q, p, t) && 0 < j && DigitAt(t, j) && IsSpace(t[j - 1])
    ensures j == q.D0() || j == q.H0()
  {
    QuietElsewhere(q, p, t, j);
  }

  lemma NotAMonth(word: string)
    requires word == "at" || word == "t" || word == ""
    ensures MonthNumber(word).None?
  {
    assert |word| <= 2;
  }

  lemma WeekdayIsNamed(p: Printed)
    requires p.Valid()
    ensures WeekdayNamed(p.Text()).Some?
  {
    FullNameIsAWord(p);
    FullNameIsNamed(p.Text(), p.weekday);
  }

  lemma FullNameIsNamed(s: string, w: int)
    requires 0 <= w < 7 && ContainsWord(s, LowerWeekday(w))
    ensures WeekdayNamed(s).Some?
  {
    match w
    case 0 => assert ContainsAnyWord(s, ["monday", "mon"]);
    case 1 => assert ContainsAnyWord(s, ["tuesday", "tue", "tues"]);
    case 2 => assert ContainsAnyWord(s, ["wednesday", "wed"]);
    case 3 => assert ContainsAnyWord(s, ["thursday", "thu", "thur", "thurs"]);
    case 4 => assert ContainsAnyWord(s, ["friday", "fri"]);
    case 5 => assert ContainsAnyWord(s, ["saturday", "sat"]);
    case _ => assert ContainsAnyWord(s, ["sunday", "sun"]);
  }

  /** When the printed day and month name no date this year or next, the weekday is all
  that is left, and it means a day of the coming week. */
  lemma DateReadsBack(p: Printed, today: Ordinal)
    requires p.Valid()
    ensures var date := FromDayMonth(p.day, p.month, today);
            var read := ParseDate(p.Text(), today);
            if date.Some? then read == date
            else read.Some? && today < read.value <= today + 7
  {
    var q, t := PrintedIsCharted(p);
    PlainText(p);
    NoEarlierReading(t);
    assert ParseDate(t, today) == CalendarDate(t, today);
    NoNumericDate(q, p, t);
    TheDayMonth(q, p, t);
    NoMonthDay(q, p, t);
    WeekdayIsNamed(p);
  }

  // ------------------------------------------------------------------
  // The moment
  // ------------------------------------------------------------------

  /** The printed day and month still name the date of `m` as of `today`: the date lies in
  this year, or in the next one before the anniversary of today and is not 29 February. */
  predicate StillNames(today: Ordinal, day: Ordinal) {
    var now, date := DateOf(today), DateOf(day);
    || date.year == now.year
    || (date.year == now.year + 1
        && Earlier(Date(now.year, date.month, date.day), now)
        && !(date.month == 2 && date.day == 29))
  }

  lemma OnlyLeapDaysVanish(date: Date, year: int)
    requires IsDate(date) && 1 <= year
    ensures IsDate(Date(year, date.month, date.day)) <==> !(date.month == 2 && date.day == 29) || IsLeap(year)
  {
  }

  lemma NoTwoLeapYearsRunning(year: int)
    requires IsLeap(year)
    ensures !IsLeap(year + 1)
  {
  }

  /** What a day and month mean, without the ordinals. */
  lemma DayMonthMeaning(date: Date, today: Ordinal)
    requires IsDate(date)
    ensures var now := DateOf(today);
            var thisYear, nextYear := Date(now.year, date.month, date.day), Date(now.year + 1, date.month, date.day);
            FromDayMonth(date.day, date.month, today)
            == if !IsDate(thisYear) then None
               else if !Earlier(thisYear, now) then Some(ToOrdinal(thisYear))
               else if IsDate(nextYear) then Some(ToOrdinal(nextYear))
               else None
  {
    var thisYear := Date(DateOf(today).year, date.month, date.day);
    if IsDate(thisYear) {
      OrdinalOrder(thisYear, DateOf(today));
    }
  }

  lemma OrdinalNames(date: Date, day: Ordinal)
    requires IsDate(date)
    ensures ToOrdinal(date) == day <==> date == DateOf(day)
  {
    DateOfToOrdinal(date);
  }

  lemma NamedDateIsRead(today: Ordinal, day: Ordinal)
    requires today <= day
    ensures FromDayMonth(DateOf(day).day, DateOf(day).month, today) == Some(day) <==> StillNames(today, day)
  {
    var now, date := DateOf(today), DateOf(day);
    var thisYear, nextYear := Date(now.year, date.month, date.day), Date(now.year + 1, date.month, date.day);
    DayMonthMeaning(date, today);
    assert !Earlier(date, now) by {
      OrdinalOrder(date, now);
    }
    if IsDate(thisYear) {
      OrdinalNames(thisYear, day);
    }
    if IsDate(nextYear) {
      OrdinalNames(nextYear, day);
    }
    assert IsDate(nextYear) ==> IsDate(thisYear) || (date.month == 2 && date.day == 29);
    assert IsDate(thisYear) && IsDate(nextYear) ==> !(date.month == 2 && date.day == 29) by {
      if IsLeap(now.year) {
        NoTwoLeapYearsRunning(now.year);
      }
    }
  }

  /** A date that no year names any more is a leap day at least two months away. */
  lemma UnnamedIsFar(today: Ordinal, day: Ordinal)
    requires today <= day && FromDayMonth(DateOf(day).day, DateOf(day).month, today).None?
    ensures today + 7 < day
  {
    var now, date := DateOf(today), DateOf(day);
    DayMonthMeaning(date, today);
    OnlyLeapDaysVanish(date, now.year);
    OnlyLeapDaysVanish(date, now.year + 1);
    OrdinalOrder(date, now);
    assert now.year < date.year;
    MonthTable(date.year);
    MonthStartsBounded(now.year, now.month);
    YearStep(now.year);
    YearsGrow(now.year + 1, date.year);
  }

  lemma ParsedByDateAndTime(v: Validator, text: string, reference: Moment, assumeDate: Option<Ordinal>)
    requires var cleaned := Lower(Strip(text));
             cleaned != "" && !ContainsAny(cleaned, ASAP_WORDS)
             && ParseDate(cleaned, reference.day).Some? && v.ParseTime(cleaned).Some?
    ensures var cleaned := Lower(Strip(text));
            var at := Moment(ParseDate(cleaned, reference.day).value, v.ParseTime(cleaned).value);
            v.Parse(text, reference, assumeDate).slot
            == if v.Accepts(at, reference) then Some(Slot(at, Strip(text))) else None
  {
  }

  lemma TextReading(v: Validator, p: Printed, today: Ordinal)
    requires p.Valid()
    ensures !ContainsAny(p.Text(), ASAP_WORDS)
    ensures ParseDate(p.Text(), today).Some? && v.ParseTime(p.Text()) == ClockTime(p.hour, p.minute)
  {
    PlainText(p);
    NoEarlierReading(p.Text());
    TimeReadsBack(v, p);
    DateReadsBack(p, today);
  }

  ghost predicate ReadAt(v: Validator, text: string, reference: Moment, assumeDate: Option<Ordinal>, at: Moment) {
    var slot := v.Parse(text, reference, assumeDate).slot;
    if v.Accepts(at, reference) then slot.Some? && slot.value.at == at else slot.None?
  }

  lemma CleanedReading(
      v: Validator, text: string, cleaned: string, at: Moment, reference: Moment, assumeDate: Option<Ordinal>)
    requires Lower(Strip(text)) == cleaned != "" && !ContainsAny(cleaned, ASAP_WORDS)
    requires ParseDate(cleaned, reference.day) == Some(at.day) && v.ParseTime(cleaned) == Some(at.us)
    ensures ReadAt(v, text, reference, assumeDate, at)
  {
    ParsedByDateAndTime(v, text, reference, assumeDate);
  }

  /** The printed hour and minute are the time of day. */
  lemma PrintedTime(m: Moment)
    requires WholeMinute(m.us) == m.us
    ensures ClockTime(PrintedOf(m).hour, PrintedOf(m).minute) == Some(m.us)
  {
  }

  lemma TextOfMomentIsRead(v: Validator, text: string, m: Moment, reference: Moment, assumeDate: Option<Ordinal>)
    requires WholeMinute(m.us) == m.us && PrintedOf(m).Valid() && Lower(Strip(text)) == PrintedOf(m).Text() != ""
    ensures ParseDate(PrintedOf(m).Text(), reference.day).Some?
    ensures ReadAt(v, text, reference, assumeDate, Moment(ParseDate(PrintedOf(m).Text(), reference.day).value, m.us))
  {
    TextReading(v, PrintedOf(m), reference.day);
    PrintedTime(m);
    var day := ParseDate(PrintedOf(m).Text(), reference.day).value;
    CleanedReading(v, text, PrintedOf(m).Text(), Moment(day, m.us), reference, assumeDate);
  }

  /** The reading of a printed slot depends on its date alone. */
  lemma DisplayReading(v: Validator, m: Moment, raw: string, reference: Moment, assumeDate: Option<Ordinal>)
    requires WholeMinute(m.us) == m.us
    ensures PrintedOf(m).Valid() && ParseDate(PrintedOf(m).Text(), reference.day).Some?
    ensures ReadAt(v, Slot(m, raw).Display(), reference, assumeDate,
                   Moment(ParseDate(PrintedOf(m).Text(), reference.day).value, m.us))
  {
    CleanedDisplay(m, raw);
    TextOfMomentIsRead(v, Slot(m, raw).Display(), m, reference, assumeDate);
  }

  /** Printing an acceptable whole-minute moment and parsing the text gives back exactly that
  moment if and only if the printed day and month still name its date - whatever the
  opening hours, the raw text, the reference time and the remembered date. */
  lemma DisplayRoundTrips(v: Validator, m: Moment, raw: string, reference: Moment, assumeDate: Option<Ordinal>)
    requires v.Accepts(m, reference) && WholeMinute(m.us) == m.us
    ensures var slot := v.Parse(Slot(m, raw).Display(), reference, assumeDate).slot;
            (slot.Some? && slot.value.at == m) <==> StillNames(reference.day, m.day)
  {
    var p := PrintedOf(m);
    DisplayReading(v, m, raw, reference, assumeDate);
    DateReadsBack(p, reference.day);
    NamedDateIsRead(reference.day, m.day);
    if FromDayMonth(p.day, p.month, reference.day).None? {
      UnnamedIsFar(reference.day, m.day);
    }
  }

  /** Fifty-nine days reach into the next year at most. */
  lemma YearsWithinFiftyNineDays(now: Date, date: Date)
    requires IsDate(now) && IsDate(date) && ToOrdinal(now) <= ToOrdinal(date) <= ToOrdinal(now) + 59
    ensures now.year <= date.year <= now.year + 1
  {
    OrdinalOrder(now, date);
    if now.year + 1 < date.year {
      MonthStartsBounded(now.year, now.month);
      MonthStartsBounded(date.year, date.month);
      YearStep(now.year);
      YearStep(now.year + 1);
      YearsGrow(now.year + 2, date.year);
    }
  }

  /** Across a year's end they lie early in the new year, and began late in the old one. */
  lemma AcrossYearEnd(now: Date, date: Date)
    requires IsDate(now) && IsDate(date) && ToOrdinal(date) <= ToOrdinal(now) + 59 && date.year == now.year + 1
    ensures DaysBeforeMonth(date.year, date.month) + date.day <= 59
    ensures YearLength(now.year) <= DaysBeforeMonth(now.year, now.month) + now.day + 58
  {
    YearStep(now.year);
    MonthStartsBounded(now.year, now.month);
    MonthStartsBounded(date.year, date.month);
  }

  lemma WithinFiftyNineDays(today: Ordinal, day: Ordinal)
    requires today <= day <= today + 59
    ensures StillNames(today, day)
  {
    var now, date := DateOf(today), DateOf(day);
    YearsWithinFiftyNineDays(now, date);
    if date.year != now.year {
      AcrossYearEnd(now, date);
      FirstMonths(date);
      LastMonths(now);
    }
  }

  lemma FirstMonths(date: Date)
    requires IsDate(date) && DaysBeforeMonth(date.year, date.month) + date.day <= 59
    ensures date.month <= 2 && !(date.month == 2 && date.day == 29)
  {
    MonthTable(date.year);
    if 2 < date.month {
      MonthsGrow(date.year, 2, date.month);
    }
  }

  lemma LastMonths(date: Date)
    requires IsDate(date) && YearLength(date.year) <= DaysBeforeMonth(date.year, date.month) + date.day + 58
    ensures 3 <= date.month
  {
    MonthTable(date.year);
  }

  /** With a horizon of at most 59 days every printed suggestion or booking reads back. */
  lemma DisplayRoundTripsInHorizon(v: Validator, m: Moment, raw: string, reference: Moment, assumeDate: Option<Ordinal>)
    requires v.Accepts(m, reference) && WholeMinute(m.us) == m.us && v.maxDaysAhead <= 59
    ensures var slot := v.Parse(Slot(m, raw).Display(), reference, assumeDate).slot;
            slot.Some? && slot.value.at == m
  {
    DisplayRoundTrips(v, m, raw, reference, assumeDate);
    MomentOrder(reference, m);
    PlusDays(reference, v.maxDaysAhead);
    WithinFiftyNineDays(reference.day, m.day);
  }

  lemma SixtyDaysBetween(lastDay: Date, leapDay: Date)
    requires lastDay == Date(2027, 12, 31) && leapDay == Date(2028, 2, 29)
    ensures ToOrdinal(leapDay) == ToOrdinal(lastDay) + 60 && Weekday(ToOrdinal(leapDay)) == 1
  {
    MonthTable(2027);
    MonthTable(2028);
  }

  lemma SixtyDaysApart(today: Ordinal, leapDay: Ordinal) returns (v: Validator, m: Moment, reference: Moment)
    requires leapDay == today + 60 && Weekday(leapDay) == 1
    ensures v.maxDaysAhead == 60 && v.Sane() && reference.day == today && m.day == leapDay
    ensures v.Accepts(m, reference) && WholeMinute(m.us) == m.us
  {
    v := Validator(Hours(11), Hours(19), {4}, 60, Minutes(30));
    reference := Moment(today, Hours(12));
    m := Moment(leapDay, Hours(12));
    assert OpenDay(v.closedWeekdays, m.day);
    PlusDays(reference, 60);
    MomentOrder(Plus(reference, v.minLead), m);
  }

  lemma LeapDayNextYear(lastDay: Date, leapDay: Date) returns (v: Validator, m: Moment, reference: Moment)
    requires IsDate(lastDay) && IsDate(leapDay)
    requires lastDay.year + 1 == leapDay.year && leapDay.month == 2 && leapDay.day == 29
    requires ToOrdinal(leapDay) == ToOrdinal(lastDay) + 60 && Weekday(ToOrdinal(leapDay)) == 1
    ensures v.maxDaysAhead == 60 && v.Sane()
    ensures v.Accepts(m, reference) && WholeMinute(m.us) == m.us && !StillNames(reference.day, m.day)
  {
    DateOfToOrdinal(lastDay);
    DateOfToOrdinal(leapDay);
    v, m, reference := SixtyDaysApart(ToOrdinal(lastDay), ToOrdinal(leapDay));
  }

  /** Sixty days are too many: on 31 December 2027 a slot on 29 February 2028 is acceptable
  in the default opening hours, but its printed form is not read as that day. */
  lemma SixtyDaysAreTooMany(assumeDate: Option<Ordinal>) returns (v: Validator, m: Moment, reference: Moment)
    ensures v.maxDaysAhead == 60 && v.Sane()
    ensures v.Accepts(m, reference) && WholeMinute(m.us) == m.us
    ensures var slot := v.Parse(Slot(m, "").Display(), reference, assumeDate).slot;
            !(slot.Some? && slot.value.at == m)
  {
    var lastDay, leapDay := Date(2027, 12, 31), Date(2028, 2, 29);
    SixtyDaysBetween(lastDay, leapDay);
    v, m, reference := LeapDayNextYear(lastDay, leapDay);
    DisplayRoundTrips(v, m, "", reference, assumeDate);
  }
}
