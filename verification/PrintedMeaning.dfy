/** What the text shown for a slot says, read without the parser: the weekday of its day, its time,
and its day for as long as the day and month name it. */
module PrintedMeaning {
  import opened Wrappers
  import opened Calendar
  import opened TimeText
  import opened CallbackTime
  import opened TimeMeaning
  import opened ReplyMeaning
  import opened PrintedText
  import opened DisplayRoundTrip

  lemma FullNameSays(s: string, w: int)
    requires 0 <= w < 7 && ContainsWord(s, LowerWeekday(w))
    ensures SaysWeekday(s, w)
  {
    SaysContainsWord(s, LowerWeekday(w));
  }

  lemma DaySays(m: Moment, today: Ordinal)
    requires today <= m.day && PrintedOf(m).Valid()
    ensures NamesDay(PrintedOf(m).Text(), today, m.day) <==> StillNames(today, m.day)
  {
    var p := PrintedOf(m);
    DateReadsBack(p, today);
    DayIsNamed(p.Text(), today, m.day);
    NamedDateIsRead(today, m.day);
    if FromDayMonth(p.day, p.month, today).None? {
      UnnamedIsFar(today, m.day);
    }
  }

  /** The text shown for a whole-minute moment names the weekday of its day and its time, and names
  its day exactly as long as the day and month still name it. */
  lemma DisplaySays(v: Validator, m: Moment, raw: string, today: Ordinal)
    requires WholeMinute(m.us) == m.us && today <= m.day
    ensures var s := Lower(Strip(Slot(m, raw).Display()));
      && SaysWeekday(s, Weekday(m.day)) && NamesTime(v, s, m.us)
      && (NamesDay(s, today, m.day) <==> StillNames(today, m.day))
  {
    var p := PrintedOf(m);
    CleanedDisplay(m, raw);
    FullNameIsAWord(p);
    FullNameSays(p.Text(), p.weekday);
    PrintedTime(m);
    TimeReadsBack(v, p);
    TimeIsNamed(v, p.Text(), m.us);
    DaySays(m, today);
  }
}
