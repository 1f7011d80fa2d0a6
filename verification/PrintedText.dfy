/** The text of a printed slot, character by character: what it contains and where. */
module PrintedText {
  import opened Wrappers
  import opened Calendar
  import opened TimeText
  import opened CallbackTime

  // ------------------------------------------------------------------
  // The printed text, lower-cased
  // ------------------------------------------------------------------

  function LowerWeekday(w: int): string {
    match w
    case 0 => "monday" case 1 => "tuesday" case 2 => "wednesday" case 3 => "thursday"
    case 4 => "friday" case 5 => "saturday" case _ => "sunday"
  }

  function LowerMonth(m: int): string {
    match m
    case 1 => "january" case 2 => "february" case 3 => "march" case 4 => "april"
    case 5 => "may" case 6 => "june" case 7 => "july" case 8 => "august"
    case 9 => "september" case 10 => "october" case 11 => "november" case _ => "december"
  }

  /** The pieces of a printed slot. */
  datatype Printed = Printed(weekday: int, day: int, month: int, hour: int, minute: int) {
    ghost predicate Valid() {
      0 <= weekday < 7 && 1 <= day <= 31 && 1 <= month <= 12 && 0 <= hour < 24 && 0 <= minute < 60
    }

    function Left(): string
      requires Valid()
    {
      LowerWeekday(weekday) + ", "
    }

    function Middle(): string
      requires Valid()
    {
      " " + LowerMonth(month) + " at "
    }

    function MinutePart(): string
      requires Valid()
    {
      if minute == 0 then "" else ":" + TwoDigits(minute)
    }

    function Right(): string
      requires Valid()
    {
      if hour < 12 then " am" else " pm"
    }

    function Text(): string
      requires Valid()
    {
      Left() + Decimal(day) + Middle() + Decimal(Hour12(hour)) + MinutePart() + Right()
    }
  }

  function PrintedOf(m: Moment): Printed {
    Printed(Weekday(m.day), DateOf(m.day).day, DateOf(m.day).month, HourOf(m.us), MinuteOf(m.us))
  }

  lemma DaysFitTwoDigits(d: Date)
    requires IsDate(d)
    ensures d.day <= 31
  {
  }

  lemma LowerConcat(a: string, b: string)
    ensures Lower(a + b) == Lower(a) + Lower(b)
  {
  }

  lemma LowerWeekdayName(w: int)
    ensures Lower(WeekdayName(w)) == LowerWeekday(w)
  {
    match w
    case 0 => assert Lower("Monday") == "monday";
    case 1 => assert Lower("Tuesday") == "tuesday";
    case 2 => assert Lower("Wednesday") == "wednesday";
    case 3 => assert Lower("Thursday") == "thursday";
    case 4 => assert Lower("Friday") == "friday";
    case 5 => assert Lower("Saturday") == "saturday";
    case _ => assert Lower("Sunday") == "sunday";
  }

  lemma LowerMonthName(m: int)
    ensures Lower(MonthName(m)) == LowerMonth(m)
  {
    match m
    case 1 => assert Lower("January") == "january";
    case 2 => assert Lower("February") == "february";
    case 3 => assert Lower("March") == "march";
    case 4 => assert Lower("April") == "april";
    case 5 => assert Lower("May") == "may";
    case 6 => assert Lower("June") == "june";
    case 7 => assert Lower("July") == "july";
    case 8 => assert Lower("August") == "august";
    case 9 => assert Lower("September") == "september";
    case 10 => assert Lower("October") == "october";
    case 11 => assert Lower("November") == "november";
    case _ => assert Lower("December") == "december";
  }

  predicate Digits(s: string) {
    forall i :: 0 <= i < |s| ==> IsDigit(s[i])
  }

  lemma DecimalShape(n: nat)
    requires n < 100
    ensures 1 <= |Decimal(n)| <= 2 && Digits(Decimal(n))
    ensures Lower(Decimal(n)) == Decimal(n)
    ensures |Decimal(n)| == 1 ==> DigitValue(Decimal(n)[0]) == n
    ensures |Decimal(n)| == 2 ==> DigitValue(Decimal(n)[0]) * 10 + DigitValue(Decimal(n)[1]) == n
  {
    if n >= 10 {
      assert Decimal(n / 10) == [DigitChar(n / 10)];
    }
  }

  lemma TwoDigitsShape(n: nat)
    requires n < 100
    ensures Digits(TwoDigits(n)) && Lower(TwoDigits(n)) == TwoDigits(n)
    ensures DigitValue(TwoDigits(n)[0]) * 10 + DigitValue(TwoDigits(n)[1]) == n
  {
  }

  lemma LowerConcat6(a: string, b: string, c: string, d: string, e: string, f: string)
    ensures Lower(a + b + c + d + e + f) == Lower(a) + Lower(b) + Lower(c) + Lower(d) + Lower(e) + Lower(f)
  {
    LowerConcat(a, b);
    LowerConcat(a + b, c);
    LowerConcat(a + b + c, d);
    LowerConcat(a + b + c + d, e);
    LowerConcat(a + b + c + d + e, f);
  }

  lemma LowerPieces(p: Printed)
    requires p.Valid()
    ensures Lower(WeekdayName(p.weekday) + ", ") == p.Left()
    ensures Lower(" " + MonthName(p.month) + " at ") == p.Middle()
    ensures Lower(if p.minute == 0 then "" else ":" + TwoDigits(p.minute)) == p.MinutePart()
    ensures Lower(if p.hour < 12 then " AM" else " PM") == p.Right()
  {
    LowerWeekdayName(p.weekday);
    LowerMonthName(p.month);
    LowerConcat(WeekdayName(p.weekday), ", ");
    LowerConcat(" " + MonthName(p.month), " at ");
    LowerConcat(" ", MonthName(p.month));
    if p.minute != 0 {
      TwoDigitsShape(p.minute);
      LowerConcat(":", TwoDigits(p.minute));
    }
  }

  lemma NothingToStrip(a: string, b: string)
    requires a != "" && !IsSpace(a[0]) && b != "" && !IsSpace(b[|b| - 1])
    ensures Strip(a + b) == a + b
  {
  }

  lemma CleanedPieces(a: string, b: string, c: string, d: string, e: string, f: string)
    requires a != "" && !IsSpace(a[0]) && f != "" && !IsSpace(f[|f| - 1])
    ensures Lower(Strip(a + b + c + d + e + f)) == Lower(a) + Lower(b) + Lower(c) + Lower(d) + Lower(e) + Lower(f)
  {
    NothingToStrip(a + b + c + d + e, f);
    LowerConcat6(a, b, c, d, e, f);
  }

  lemma CleanedDisplay(m: Moment, raw: string)
    ensures PrintedOf(m).Valid()
    ensures Lower(Strip(Slot(m, raw).Display())) == PrintedOf(m).Text()
    ensures PrintedOf(m).Text() != ""
  {
    var p := PrintedOf(m);
    DaysFitTwoDigits(DateOf(m.day));
    LowerPieces(p);
    DecimalShape(p.day);
    DecimalShape(Hour12(p.hour));
    var a := WeekdayName(p.weekday) + ", ";
    assert !IsSpace(a[0]);
    CleanedPieces(a, Decimal(p.day), " " + MonthName(p.month) + " at ", Decimal(Hour12(p.hour)),
                  if p.minute == 0 then "" else ":" + TwoDigits(p.minute),
                  if p.hour < 12 then " AM" else " PM");
    DisplayPieces(m, raw);
  }

  lemma DisplayPieces(m: Moment, raw: string)
    ensures var p := PrintedOf(m);
            p.day >= 0 && 0 <= p.minute < 60
            && Slot(m, raw).Display()
               == (WeekdayName(p.weekday) + ", ") + Decimal(p.day) + (" " + MonthName(p.month) + " at ")
                  + Decimal(Hour12(p.hour)) + (if p.minute == 0 then "" else ":" + TwoDigits(p.minute))
                  + (if p.hour < 12 then " AM" else " PM")
  {
    var p := PrintedOf(m);
    var a, d, b := WeekdayName(p.weekday), Decimal(p.day), MonthName(p.month);
    assert a + ", " + d + " " + b + " at " == (a + ", ") + d + (" " + b + " at ");
  }

  // ------------------------------------------------------------------
  // Letter pairs that never occur in a printed slot
  // ------------------------------------------------------------------

  /** Each word the parser reacts to first contains one of these pairs. */
  predicate Telling(a: char, b: char) {
    if a == 'a' then b == 's' || b == 'a'
    else if a == 'o' then b == 'm' || b == 'd'
    else if a == 'i' || a == 't' then b == 'm'
    else if a == 'g' then b == 'h'
    else if a == 'f' then b == 't'
    else a == 'k' && b == 'a'
  }

  predicate Plain(s: string) {
    forall i :: 0 <= i < |s| - 1 ==> !Telling(s[i], s[i + 1])
  }

  lemma PlainConcat(a: string, b: string)
    requires Plain(a) && Plain(b)
    requires a != "" && b != "" ==> !Telling(a[|a| - 1], b[0])
    ensures Plain(a + b)
  {
    forall i | 0 <= i < |a + b| - 1
      ensures !Telling((a + b)[i], (a + b)[i + 1])
    {
      if i + 1 < |a| {
        assert !Telling(a[i], a[i + 1]);
      } else if |a| <= i {
        assert !Telling(b[i - |a|], b[i - |a| + 1]);
      }
    }
  }

  lemma PlainWeekday(w: int)
    requires 0 <= w < 7
    ensures Plain(LowerWeekday(w)) && LowerWeekday(w) != "" && LowerWeekday(w)[|LowerWeekday(w)| - 1] == 'y'
  {
    PlainEarlyWeekday(w);
    PlainLateWeekday(w);
  }

  lemma PlainEarlyWeekday(w: int)
    ensures 0 <= w < 4 ==> Plain(LowerWeekday(w))
  {
  }

  lemma PlainLateWeekday(w: int)
    ensures 4 <= w < 7 ==> Plain(LowerWeekday(w))
  {
  }

  lemma PlainLeft(p: Printed)
    requires p.Valid()
    ensures Plain(p.Left())
  {
    PlainWeekday(p.weekday);
    PlainConcat(LowerWeekday(p.weekday), ", ");
  }

  lemma PlainMonth(m: int)
    requires 1 <= m <= 12
    ensures Plain(LowerMonth(m))
  {
    if m <= 4 {
      PlainEarlyMonth(m);
    } else if 9 <= m {
      PlainLateMonth(m);
    }
  }

  lemma PlainEarlyMonth(m: int)
    requires 1 <= m <= 4
    ensures Plain(LowerMonth(m))
  {
  }

  lemma PlainLateMonth(m: int)
    requires 9 <= m <= 12
    ensures Plain(LowerMonth(m))
  {
    var head := if m == 9 then "sept" else if m == 10 then "octo" else if m == 11 then "nov" else "dec";
    var tail := if m == 10 then "ber" else "ember";
    assert LowerMonth(m) == head + tail;
    PlainConcat(head, tail);
  }

  lemma PlainMiddle(p: Printed)
    requires p.Valid()
    ensures Plain(p.Middle())
  {
    PlainMonth(p.month);
    PlainConcat(" ", LowerMonth(p.month));
    PlainConcat(" " + LowerMonth(p.month), " at ");
  }

  /** Text that starts and ends with digits, spaces or punctuation never completes a pair. */
  predicate Guarded(s: string) {
    s == "" || (!('a' <= s[0] <= 'z') && Plain(s))
  }

  lemma PlainBeforeGuarded(a: string, b: string)
    requires Plain(a) && Guarded(b)
    ensures Plain(a + b)
  {
    if b == "" {
      assert a + b == a;
    } else {
      PlainConcat(a, b);
    }
  }

  lemma PlainText(p: Printed)
    requires p.Valid()
    ensures Plain(p.Text())
  {
    DecimalShape(p.day);
    DecimalShape(Hour12(p.hour));
    TwoDigitsShape(p.minute);
    PlainLeft(p);
    PlainMiddle(p);
    assert Guarded(p.Middle()) && Guarded(p.MinutePart()) && Guarded(p.Right());
    PlainBeforeGuarded(p.Left(), Decimal(p.day));
    PlainBeforeGuarded(p.Left() + Decimal(p.day), p.Middle());
    PlainBeforeGuarded(p.Left() + Decimal(p.day) + p.Middle(), Decimal(Hour12(p.hour)));
    PlainBeforeGuarded(p.Left() + Decimal(p.day) + p.Middle() + Decimal(Hour12(p.hour)), p.MinutePart());
    PlainBeforeGuarded(p.Left() + Decimal(p.day) + p.Middle() + Decimal(Hour12(p.hour)) + p.MinutePart(), p.Right());
  }

  lemma PlainExcludes(s: string, w: string, j: nat)
    requires j + 1 < |w| && Telling(w[j], w[j + 1])
    ensures Contains(s, w) || ContainsWord(s, w) ==> !Plain(s)
  {
    if Contains(s, w) || ContainsWord(s, w) {
      var i: nat :| i <= |s| && Starts(s, i, w);
      var k := i + j;
      assert s[k] == w[j] && s[k + 1] == w[j + 1];
      assert Telling(s[k], s[k + 1]);
    }
  }

  lemma NoEarlierReading(s: string)
    requires Plain(s)
    ensures !ContainsAny(s, ASAP_WORDS)
    ensures !Contains(s, "day after tomorrow") && !Contains(s, "day after tmrw")
    ensures !ContainsAnyWord(s, TOMORROW_WORDS) && !ContainsAnyWord(s, TODAY_WORDS)
  {
    PlainExcludes(s, "asap", 0);
    PlainExcludes(s, "anytime", 4);
    PlainExcludes(s, "any time", 5);
    PlainExcludes(s, "as soon as possible", 0);
    PlainExcludes(s, "right now", 2);
    PlainExcludes(s, "immediately", 0);
    PlainExcludes(s, "day after tomorrow", 5);
    PlainExcludes(s, "day after tmrw", 5);
    PlainExcludes(s, "tomorrow", 1);
    PlainExcludes(s, "tomorow", 1);
    PlainExcludes(s, "tommorow", 1);
    PlainExcludes(s, "tmrw", 0);
    PlainExcludes(s, "tmr", 0);
    PlainExcludes(s, "kal", 0);
    PlainExcludes(s, "today", 1);
    PlainExcludes(s, "aaj", 0);
    PlainExcludes(s, "tonight", 4);
  }

  // ------------------------------------------------------------------
  // Where the digits are
  // ------------------------------------------------------------------

  predicate NoDigits(s: string) {
    forall i :: 0 <= i < |s| ==> !IsDigit(s[i])
  }

  predicate Letters(s: string) {
    forall i :: 0 <= i < |s| ==> 'a' <= s[i] <= 'z'
  }

  /** The text around the numbers, with the names left abstract. */
  datatype Pieces = Pieces(left: string, day: string, month: string, hour: string, minutes: string, right: string) {
    function Text(): string {
      left + day + (" " + month + " at ") + hour + minutes + right
    }

    // Positions: of the day, the space after it, the hour, what follows it, and the end.
    function D0(): nat { |left| }
    function D1(): nat { |left| + |day| }
    function H0(): nat { |left| + |day| + |month| + 5 }
    function H1(): nat { |left| + |day| + |month| + 5 + |hour| }
    function Z0(): nat { |left| + |day| + |month| + 5 + |hour| + |minutes| }

    ghost predicate Spell(p: Printed) {
      && 0 <= p.day < 100 && 0 <= p.hour < 24 && 0 <= p.minute < 60
      && 2 <= |left| && NoDigits(left) && left[|left| - 2] == ',' && left[|left| - 1] == ' '
      && 3 <= |month| && Letters(month)
      && month[1] != 'm' && month[1] != '.'
      && day == Decimal(p.day) && hour == Decimal(Hour12(p.hour))
      && minutes == (if p.minute == 0 then "" else ":" + TwoDigits(p.minute))
      && right == (if p.hour < 12 then " am" else " pm")
    }
  }

  function PiecesOf(p: Printed): Pieces
    requires p.Valid()
  {
    Pieces(p.Left(), Decimal(p.day), LowerMonth(p.month), Decimal(Hour12(p.hour)), p.MinutePart(), p.Right())
  }

  lemma WeekdayLetters(w: int)
    ensures Letters(LowerWeekday(w))
  {
  }

  lemma MonthsSpell(m: int)
    requires 1 <= m <= 12
    ensures MonthNumber(LowerMonth(m)) == Some(m)
    ensures 3 <= |LowerMonth(m)| && Letters(LowerMonth(m))
    ensures LowerMonth(m)[1] != 'm'
  {
  }

  lemma PiecesSpell(p: Printed)
    requires p.Valid()
    ensures PiecesOf(p).Text() == p.Text() && PiecesOf(p).Spell(p)
    ensures MonthNumber(PiecesOf(p).month) == Some(p.month)
  {
    WeekdayLetters(p.weekday);
    MonthsSpell(p.month);
  }

  lemma CharOf(s: string, i: nat, w: string)
    requires Starts(s, i, w)
    ensures forall k :: i <= k < i + |w| ==> s[k] == w[k - i]
  {
    forall k | i <= k < i + |w|
      ensures s[k] == w[k - i]
    {
      assert s[i + (k - i)] == w[k - i];
    }
  }

  /** `w` stands at position i, said of the characters. */
  ghost predicate Holds(t: string, i: nat, w: string) {
    i + |w| <= |t| && forall k :: i <= k < i + |w| ==> t[k] == w[k - i]
  }

  ghost predicate Layout(q: Pieces, t: string) {
    && |t| == q.Z0() + |q.right|
    && Holds(t, 0, q.left) && Holds(t, q.D0(), q.day) && t[q.D1()] == ' '
    && Holds(t, q.D1() + 1, q.month)
    && t[q.H0() - 4] == ' ' && t[q.H0() - 3] == 'a' && t[q.H0() - 2] == 't' && t[q.H0() - 1] == ' '
    && Holds(t, q.H0(), q.hour) && Holds(t, q.H1(), q.minutes) && Holds(t, q.Z0(), q.right)
  }

  /** What stands in a front part, or right after it, stands in the whole. */
  lemma Peel(t: string, a: string, w: string)
    requires Holds(t, 0, a + w)
    ensures Holds(t, 0, a) && Holds(t, |a|, w)
  {
    forall k | 0 <= k < |a|
      ensures t[k] == a[k]
    {
      assert t[k] == (a + w)[k];
    }
    forall k | |a| <= k < |a| + |w|
      ensures t[k] == w[k - |a|]
    {
      assert t[k] == (a + w)[k];
    }
  }

  lemma BackHolds(t: string, front: string, hour: string, minutes: string, right: string)
    requires t == front + hour + minutes + right
    ensures Holds(t, 0, front) && Holds(t, |front|, hour)
    ensures Holds(t, |front| + |hour|, minutes) && Holds(t, |front| + |hour| + |minutes|, right)
  {
    Peel(t, front + hour + minutes, right);
    Peel(t, front + hour, minutes);
    Peel(t, front, hour);
  }

  lemma FrontHolds(t: string, left: string, day: string, middle: string)
    requires Holds(t, 0, left + day + middle)
    ensures Holds(t, 0, left) && Holds(t, |left|, day) && Holds(t, |left| + |day|, middle)
  {
    Peel(t, left + day, middle);
    Peel(t, left, day);
  }

  lemma MiddleHolds(q: Pieces, t: string)
    requires Holds(t, q.D1(), " " + q.month + " at ")
    ensures t[q.D1()] == ' ' && Holds(t, q.D1() + 1, q.month)
    ensures t[q.H0() - 4] == ' ' && t[q.H0() - 3] == 'a' && t[q.H0() - 2] == 't' && t[q.H0() - 1] == ' '
  {
    var middle := " " + q.month + " at ";
    var d1, n := q.D1(), |q.month|;
    assert t[d1] == middle[0] && t[d1 + 1 + n] == middle[n + 1] && t[d1 + 2 + n] == middle[n + 2]
      && t[d1 + 3 + n] == middle[n + 3] && t[d1 + 4 + n] == middle[n + 4];
    forall k | d1 + 1 <= k < d1 + 1 + n
      ensures t[k] == q.month[k - (d1 + 1)]
    {
      assert t[k] == middle[k - d1];
    }
  }

  lemma TextLayout(q: Pieces)
    ensures Layout(q, q.Text())
  {
    var middle := " " + q.month + " at ";
    BackHolds(q.Text(), q.left + q.day + middle, q.hour, q.minutes, q.right);
    FrontHolds(q.Text(), q.left, q.day, middle);
    MiddleHolds(q, q.Text());
  }

  ghost predicate DigitMap(q: Pieces, p: Printed, t: string) {
    && |t| == q.Z0() + 3 && 2 <= q.D0()
    && q.Z0() == q.H1() + (if p.minute == 0 then 0 else 3)
    && (forall i :: 0 <= i < q.D0() ==> !IsDigit(t[i]))
    && (forall i :: q.D1() <= i < q.H0() ==> !IsDigit(t[i]))
    && (p.minute != 0 ==> t[q.H1()] == ':')
    && t[q.D0() - 2] == ',' && t[q.D0() - 1] == t[q.D1()] == t[q.H0() - 1] == t[q.Z0()] == ' '
    && t[q.H0() - 4] == ' ' && t[q.H0() - 3] == 'a' && t[q.H0() - 2] == 't'
    && t[q.Z0() + 1] == (if p.hour < 12 then 'a' else 'p') && t[q.Z0() + 2] == 'm'
  }

  lemma WordsHaveNoDigit(q: Pieces, p: Printed, t: string, i: nat)
    requires q.Spell(p) && Layout(q, t) && (i < q.D0() || q.D1() <= i < q.H0())
    ensures i < |t| && !IsDigit(t[i])
  {
    if i < q.D0() {
      assert t[i] == q.left[i];
    } else if q.D1() < i < q.H0() - 4 {
      assert t[i] == q.month[i - (q.D1() + 1)];
    }
  }

  lemma LayoutDigits(q: Pieces, p: Printed, t: string)
    requires q.Spell(p) && Layout(q, t)
    ensures DigitMap(q, p, t)
  {
    assert t[q.D0() - 1] == q.left[|q.left| - 1] && t[q.D0() - 2] == q.left[|q.left| - 2];
    assert t[q.Z0()] == q.right[0] && t[q.Z0() + 1] == q.right[1] && t[q.Z0() + 2] == q.right[2];
    if p.minute != 0 {
      assert t[q.H1()] == q.minutes[0];
    }
    forall i: nat | i < q.D0() || q.D1() <= i < q.H0() ensures i < |t| && !IsDigit(t[i]) {
      WordsHaveNoDigit(q, p, t, i);
    }
  }

  lemma {:induction false} DigitRunIs(s: string, i: nat, n: nat)
    requires forall k :: i <= k < i + n ==> DigitAt(s, k)
    requires !DigitAt(s, i + n)
    ensures DigitRun(s, i) == n
    decreases n
  {
    if n > 0 {
      assert DigitAt(s, i);
      DigitRunIs(s, i + 1, n - 1);
    }
  }

  lemma NumberIs(s: string, i: nat, w: string, n: nat)
    requires Holds(s, i, w) && Digits(w)
    requires (|w| == 1 && n == DigitValue(w[0])) || (|w| == 2 && n == DigitValue(w[0]) * 10 + DigitValue(w[1]))
    ensures forall k :: i <= k < i + |w| ==> DigitAt(s, k)
    ensures Number(s, i, |w|) == n
  {
    assert DigitAt(s, i) && Number(s, i, 1) == DigitValue(s[i]);
  }

  /** The n at position i is read back as one number. */
  ghost predicate ReadsAs(t: string, i: nat, w: string, n: nat) {
    && 1 <= |w| <= 2
    && (forall k :: i <= k < i + |w| ==> DigitAt(t, k))
    && DigitRun(t, i) == |w| && Number(t, i, |w|) == n
  }

  lemma DecimalReadsBack(t: string, i: nat, n: nat)
    requires n < 100 && Holds(t, i, Decimal(n)) && !DigitAt(t, i + |Decimal(n)|)
    ensures ReadsAs(t, i, Decimal(n), n)
  {
    DecimalShape(n);
    NumberIs(t, i, Decimal(n), n);
    DigitRunIs(t, i, |Decimal(n)|);
  }

  lemma MinutesReadBack(t: string, i: nat, n: nat)
    requires n < 100 && Holds(t, i, ":" + TwoDigits(n)) && !DigitAt(t, i + 3)
    ensures ReadsAs(t, i + 1, TwoDigits(n), n)
  {
    TwoDigitsShape(n);
    assert t[i + 1] == (":" + TwoDigits(n))[1] && t[i + 2] == (":" + TwoDigits(n))[2];
    NumberIs(t, i + 1, TwoDigits(n), n);
    DigitRunIs(t, i + 1, 2);
  }

  ghost predicate NumbersReadBack(q: Pieces, p: Printed, t: string) {
    && 0 <= p.day && 0 <= p.hour && 0 <= p.minute < 100
    && ReadsAs(t, q.D0(), q.day, p.day)
    && ReadsAs(t, q.H0(), q.hour, Hour12(p.hour))
    && (p.minute != 0 ==> ReadsAs(t, q.H1() + 1, TwoDigits(p.minute), p.minute))
  }

  lemma DayReadsBack(q: Pieces, p: Printed, t: string)
    requires q.Spell(p) && Layout(q, t) && DigitMap(q, p, t)
    ensures ReadsAs(t, q.D0(), q.day, p.day)
  {
    DecimalReadsBack(t, q.D0(), p.day);
  }

  lemma HourReadsBack(q: Pieces, p: Printed, t: string)
    requires q.Spell(p) && Layout(q, t) && DigitMap(q, p, t)
    ensures ReadsAs(t, q.H0(), q.hour, Hour12(p.hour))
    ensures p.minute != 0 ==> ReadsAs(t, q.H1() + 1, TwoDigits(p.minute), p.minute)
  {
    DecimalReadsBack(t, q.H0(), Hour12(p.hour));
    if p.minute != 0 {
      MinutesReadBack(t, q.H1(), p.minute);
    }
  }

  lemma AllReadBack(q: Pieces, p: Printed, t: string)
    requires q.Spell(p) && Layout(q, t) && DigitMap(q, p, t)
    ensures NumbersReadBack(q, p, t)
  {
    DayReadsBack(q, p, t);
    HourReadsBack(q, p, t);
  }

  // ------------------------------------------------------------------
  // The month
  // ------------------------------------------------------------------

  lemma {:induction false} WordRunIs(s: string, i: nat, n: nat)
    requires i + n < |s| && !IsWordChar(s[i + n])
    requires forall k :: i <= k < i + n ==> IsWordChar(s[k])
    ensures WordRun(s, i) == n
    decreases n
  {
    if n > 0 {
      WordRunIs(s, i + 1, n - 1);
    }
  }

  lemma MonthReadsBack(q: Pieces, p: Printed, t: string)
    requires q.Spell(p) && Layout(q, t)
    ensures SkipSpaces(t, q.D1()) == q.D1() + 1
    ensures MonthAt(t, q.D1() + 1) == MonthNumber(q.month)
    ensures MeridiemAt(t, q.D1() + 1).None?
  {
    var m0 := q.D1() + 1;
    assert t[m0] == q.month[0] && t[m0 + 1] == q.month[1];
    MonthWord(t, m0, q.month);
    NotAMeridiem(t, m0);
  }

  lemma MonthWord(t: string, i: nat, w: string)
    requires Holds(t, i, w) && Letters(w) && i + |w| < |t| && t[i + |w|] == ' '
    ensures MonthAt(t, i) == MonthNumber(w)
  {
    WordRunIs(t, i, |w|);
    assert t[i..i + |w|] == w;
  }

  lemma NotAMeridiem(t: string, i: nat)
    requires i + 1 < |t| && t[i + 1] != 'm' && t[i + 1] != '.'
    ensures MeridiemAt(t, i).None?
  {
    if Starts(t, i, "am") { CharOf(t, i, "am"); }
    if Starts(t, i, "pm") { CharOf(t, i, "pm"); }
    if Starts(t, i, "a.m.") { CharOf(t, i, "a.m."); }
    if Starts(t, i, "p.m.") { CharOf(t, i, "p.m."); }
  }
}
