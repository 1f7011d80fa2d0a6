/** The proleptic Gregorian calendar of Python's `datetime`, and wall-clock moments.

A date is kept both as (year, month, day) and as its ordinal; the two views are
proved to be inverse and to order dates alike. A moment is an ordinal plus the
microseconds since midnight: the application compares datetimes of one single
time zone, which Python does on the wall clock. */
module Calendar {

  // Time is counted in microseconds.
  const MINUTE: int := 60_000_000
  const HOUR: int := 3_600_000_000
  const DAY: int := 86_400_000_000

  function Minutes(n: int): int { n * 60_000_000 }
  function Hours(n: int): int { n * 3_600_000_000 }
  function Days(n: int): int { n * 86_400_000_000 }

  type Ordinal = n: int | 1 <= n witness 1
  type TimeOfDay = t: int | 0 <= t < 86_400_000_000 witness 0

  datatype Date = Date(year: int, month: int, day: int)

  predicate IsLeap(year: int) {
    year % 4 == 0 && (year % 100 != 0 || year % 400 == 0)
  }

  function DaysInMonth(year: int, month: int): int {
    if month == 2 then (if IsLeap(year) then 29 else 28)
    else if month == 4 || month == 6 || month == 9 || month == 11 then 30
    else 31
  }

  function DaysBeforeMonth(year: int, month: int): int {
    if month <= 1 then 0
    else DaysBeforeMonth(year, month - 1) + DaysInMonth(year, month - 1)
  }

  function DaysBeforeYear(year: int): int {
    (year - 1) * 365 + (year - 1) / 4 - (year - 1) / 100 + (year - 1) / 400
  }

  function YearLength(year: int): int {
    if IsLeap(year) then 366 else 365
  }

  /** What `date(year, month, day)` accepts without a ValueError. */
  predicate IsDate(d: Date) {
    1 <= d.year && 1 <= d.month <= 12 && 1 <= d.day <= DaysInMonth(d.year, d.month)
  }

  function ToOrdinal(d: Date): (n: Ordinal)
    requires IsDate(d)
  {
    YearStartsAtZero(d.year);
    MonthStartsBounded(d.year, d.month);
    DaysBeforeYear(d.year) + DaysBeforeMonth(d.year, d.month) + d.day
  }

  /** Year, month and day compared in that order. */
  predicate Earlier(a: Date, b: Date) {
    a.year < b.year
    || (a.year == b.year && (a.month < b.month || (a.month == b.month && a.day < b.day)))
  }

  lemma FourthYears(n: int)
    ensures n / 4 == (n - 1) / 4 + (if n % 4 == 0 then 1 else 0)
  {
  }

  lemma Centuries(n: int)
    ensures n / 100 == (n - 1) / 100 + (if n % 100 == 0 then 1 else 0)
  {
  }

  lemma FourthCenturies(n: int)
    ensures n / 400 == (n - 1) / 400 + (if n % 400 == 0 then 1 else 0)
  {
  }

  lemma YearStep(year: int)
    requires 1 <= year
    ensures DaysBeforeYear(year + 1) == DaysBeforeYear(year) + YearLength(year)
  {
    FourthYears(year);
    Centuries(year);
    FourthCenturies(year);
  }

  lemma YearStartsAtZero(year: int)
    requires 1 <= year
    ensures 0 <= DaysBeforeYear(year)
  {
  }

  lemma {:induction false} YearsGrow(a: int, b: int)
    requires 1 <= a <= b
    ensures DaysBeforeYear(a) + 365 * (b - a) <= DaysBeforeYear(b)
    decreases b - a
  {
    if a < b {
      YearStep(b - 1);
      YearsGrow(a, b - 1);
    }
  }

  lemma MonthStartsBounded(year: int, month: int)
    requires 1 <= month <= 12
    ensures 0 <= DaysBeforeMonth(year, month)
    ensures DaysBeforeMonth(year, month) + DaysInMonth(year, month) <= YearLength(year)
    ensures DaysBeforeMonth(year, 13) == YearLength(year)
  {
    MonthTable(year);
  }

  lemma MonthTable(year: int)
    ensures DaysBeforeMonth(year, 1) == 0 && DaysBeforeMonth(year, 2) == 31
    ensures var leap := if IsLeap(year) then 1 else 0;
            && DaysBeforeMonth(year, 3) == 59 + leap && DaysBeforeMonth(year, 4) == 90 + leap
            && DaysBeforeMonth(year, 5) == 120 + leap && DaysBeforeMonth(year, 6) == 151 + leap
            && DaysBeforeMonth(year, 7) == 181 + leap && DaysBeforeMonth(year, 8) == 212 + leap
            && DaysBeforeMonth(year, 9) == 243 + leap && DaysBeforeMonth(year, 10) == 273 + leap
            && DaysBeforeMonth(year, 11) == 304 + leap && DaysBeforeMonth(year, 12) == 334 + leap
            && DaysBeforeMonth(year, 13) == 365 + leap
  {
    assert DaysBeforeMonth(year, 2) == 31;
    assert DaysBeforeMonth(year, 4) == DaysBeforeMonth(year, 3) + 31;
    assert DaysBeforeMonth(year, 6) == DaysBeforeMonth(year, 5) + 31;
    assert DaysBeforeMonth(year, 8) == DaysBeforeMonth(year, 7) + 31;
    assert DaysBeforeMonth(year, 10) == DaysBeforeMonth(year, 9) + 30;
    assert DaysBeforeMonth(year, 12) == DaysBeforeMonth(year, 11) + 30;
  }

  lemma {:induction false} MonthsGrow(year: int, a: int, b: int)
    requires 1 <= a < b <= 13
    ensures DaysBeforeMonth(year, a) + DaysInMonth(year, a) <= DaysBeforeMonth(year, b)
    decreases b - a
  {
    if a + 1 < b {
      MonthsGrow(year, a, b - 1);
    }
  }

  /** The ordinal orders dates exactly as (year, month, day) does. */
  lemma OrdinalOrder(a: Date, b: Date)
    requires IsDate(a) && IsDate(b)
    ensures Earlier(a, b) <==> ToOrdinal(a) < ToOrdinal(b)
    ensures a == b <==> ToOrdinal(a) == ToOrdinal(b)
  {
    if Earlier(a, b) {
      EarlierIsSmaller(a, b);
    } else if Earlier(b, a) {
      EarlierIsSmaller(b, a);
    }
  }

  lemma EarlierIsSmaller(a: Date, b: Date)
    requires IsDate(a) && IsDate(b) && Earlier(a, b)
    ensures ToOrdinal(a) < ToOrdinal(b)
  {
    MonthStartsBounded(a.year, a.month);
    MonthStartsBounded(b.year, b.month);
    if a.year < b.year {
      YearStep(a.year);
      YearsGrow(a.year + 1, b.year);
    } else if a.month < b.month {
      MonthsGrow(a.year, a.month, b.month);
    }
  }

  function YearFrom(n: Ordinal, year: int): (y: int)
    requires 1 <= year && DaysBeforeYear(year) < n
    ensures year <= y && DaysBeforeYear(y) < n <= DaysBeforeYear(y + 1)
    decreases n - DaysBeforeYear(year)
  {
    YearStep(year);
    if n <= DaysBeforeYear(year + 1) then year else YearFrom(n, year + 1)
  }

  function MonthFrom(year: int, dayOfYear: int, month: int): (m: int)
    requires 1 <= month <= 12
    requires DaysBeforeMonth(year, month) < dayOfYear <= DaysBeforeMonth(year, 13)
    ensures month <= m <= 12
    ensures DaysBeforeMonth(year, m) < dayOfYear <= DaysBeforeMonth(year, m) + DaysInMonth(year, m)
    decreases 12 - month
  {
    if dayOfYear <= DaysBeforeMonth(year, month) + DaysInMonth(year, month) then month
    else
      assert DaysBeforeMonth(year, month + 1) == DaysBeforeMonth(year, month) + DaysInMonth(year, month);
      MonthFrom(year, dayOfYear, month + 1)
  }

  /** The calendar date of an ordinal: the other direction of ToOrdinal. */
  function DateOf(n: Ordinal): (d: Date)
    ensures IsDate(d) && ToOrdinal(d) == n
  {
    var year := YearFrom(n, 1);
    YearStep(year);
    MonthStartsBounded(year, 1);
    var dayOfYear := n - DaysBeforeYear(year);
    var month := MonthFrom(year, dayOfYear, 1);
    Date(year, month, dayOfYear - DaysBeforeMonth(year, month))
  }

  lemma DateOfToOrdinal(d: Date)
    requires IsDate(d)
    ensures DateOf(ToOrdinal(d)) == d
  {
    OrdinalOrder(DateOf(ToOrdinal(d)), d);
  }

  /** `date.weekday()`: Monday is 0. */
  function Weekday(n: Ordinal): (w: int)
    ensures 0 <= w < 7
  {
    (n + 6) % 7
  }

  // ------------------------------------------------------------------
  // Moments
  // ------------------------------------------------------------------

  datatype Moment = Moment(day: Ordinal, us: TimeOfDay)

  function Instant(m: Moment): int {
    Days(m.day) + m.us
  }

  function HourOf(t: TimeOfDay): (h: int)
    ensures 0 <= h < 24 && Hours(h) <= t < Hours(h + 1)
  {
    t / 3_600_000_000
  }

  function MinuteOf(t: TimeOfDay): (m: int)
    ensures 0 <= m < 60
    ensures Hours(HourOf(t)) + Minutes(m) <= t < Hours(HourOf(t)) + Minutes(m + 1)
  {
    t / 60_000_000 - 60 * HourOf(t)
  }

  /** `replace(second=0, microsecond=0)`. */
  function WholeMinute(t: TimeOfDay): (r: TimeOfDay)
    ensures r == Hours(HourOf(t)) + Minutes(MinuteOf(t))
    ensures r <= t < r + MINUTE
  {
    t / 60_000_000 * 60_000_000
  }

  predicate AtOrBefore(a: Moment, b: Moment) {
    a.day < b.day || (a.day == b.day && a.us <= b.us)
  }

  predicate Before(a: Moment, b: Moment) {
    a.day < b.day || (a.day == b.day && a.us < b.us)
  }

  lemma MomentOrder(a: Moment, b: Moment)
    ensures AtOrBefore(a, b) <==> Instant(a) <= Instant(b)
    ensures Before(a, b) <==> Instant(a) < Instant(b)
    ensures a == b <==> Instant(a) == Instant(b)
  {
    if a.day < b.day {
      assert a.day + 1 <= b.day;
    } else if b.day < a.day {
      assert b.day + 1 <= a.day;
    }
  }

  /** `moment + timedelta(microseconds=delta)`. */
  function Plus(m: Moment, delta: nat): (r: Moment)
    ensures Instant(r) == Instant(m) + delta
  {
    var total := m.us + delta;
    Moment(m.day + total / 86_400_000_000, total % 86_400_000_000)
  }

  lemma PlusDays(m: Moment, days: nat)
    ensures Plus(m, Days(days)) == Moment(m.day + days, m.us)
  {
    MomentOrder(Plus(m, Days(days)), Moment(m.day + days, m.us));
  }
}
