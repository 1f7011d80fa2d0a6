/** The regular expressions and substring tests of the callback-time parser, on ASCII text.

Each pattern is a matcher: given the text and a start position it says what the
leftmost-preferred match there captures. Where a pattern can backtrack, the
comment beside it says why one candidate is enough. `re.search` is Search. */
module TimeText {
  import opened Wrappers
  import opened Calendar

  predicate IsDigit(c: char) {
    '0' <= c <= '9'
  }

  predicate IsWordChar(c: char) {
    IsDigit(c) || 'a' <= c <= 'z' || 'A' <= c <= 'Z' || c == '_'
  }

  predicate IsSpace(c: char) {
    c == ' ' || 9 <= c as int <= 13 || 28 <= c as int <= 31
  }

  function LowerChar(c: char): char {
    if 'A' <= c <= 'Z' then c - 'A' + 'a' else c
  }

  function Lower(s: string): (r: string)
    ensures |r| == |s| && forall i :: 0 <= i < |s| ==> r[i] == LowerChar(s[i])
  {
    seq(|s|, i requires 0 <= i < |s| => LowerChar(s[i]))
  }

  function StripLeft(s: string): (r: string)
    ensures r == "" || !IsSpace(r[0])
    ensures s != "" && !IsSpace(s[0]) ==> r == s
  {
    if s == "" || !IsSpace(s[0]) then s else StripLeft(s[1..])
  }

  function StripRight(s: string): (r: string)
    ensures r == "" || !IsSpace(r[|r| - 1])
    ensures s != "" && !IsSpace(s[|s| - 1]) ==> r == s
  {
    if s == "" || !IsSpace(s[|s| - 1]) then s else StripRight(s[..|s| - 1])
  }

  function Strip(s: string): string {
    StripRight(StripLeft(s))
  }

  /** `w` stands in `s` at position i. */
  predicate Starts(s: string, i: nat, w: string) {
    i + |w| <= |s| && forall k :: 0 <= k < |w| ==> s[i + k] == w[k]
  }

  /** `w in s`. */
  predicate Contains(s: string, w: string) {
    exists i | 0 <= i <= |s| :: Starts(s, i, w)
  }

  /** `\b` at position i. */
  predicate Boundary(s: string, i: nat) {
    (0 < i <= |s| && IsWordChar(s[i - 1])) != (i < |s| && IsWordChar(s[i]))
  }

  predicate WordAt(s: string, i: nat, w: string) {
    Boundary(s, i) && Starts(s, i, w) && Boundary(s, i + |w|)
  }

  /** `re.search(rf"\b{w}\b", s)`. */
  predicate ContainsWord(s: string, w: string) {
    exists i | 0 <= i <= |s| :: WordAt(s, i, w)
  }

  predicate DigitAt(s: string, i: nat) {
    i < |s| && IsDigit(s[i])
  }

  predicate CharAt(s: string, i: nat, options: string) {
    i < |s| && s[i] in options
  }

  /** Length of the run of digits at i. */
  function DigitRun(s: string, i: nat): (n: nat)
    ensures i + n <= |s| || n == 0
    ensures forall k :: i <= k < i + n ==> DigitAt(s, k)
    ensures !DigitAt(s, i + n)
    decreases |s| - i
  {
    if DigitAt(s, i) then 1 + DigitRun(s, i + 1) else 0
  }

  predicate SpaceAt(s: string, i: nat) {
    i < |s| && IsSpace(s[i])
  }

  /** First position at or after i that is not white space: greedy `\s*`. */
  function SkipSpaces(s: string, i: nat): (j: nat)
    ensures i <= j && (j <= |s| || j == i)
    ensures forall k :: i <= k < j ==> SpaceAt(s, k)
    ensures !SpaceAt(s, j)
    decreases |s| - i
  {
    if SpaceAt(s, i) then SkipSpaces(s, i + 1) else i
  }

  function DigitValue(c: char): nat
    requires IsDigit(c)
  {
    (c - '0') as int
  }

  /** `int(...)` of the n digits at i. */
  function Number(s: string, i: nat, n: nat): nat
    requires forall k :: i <= k < i + n ==> DigitAt(s, k)
  {
    if n == 0 then 0
    else
      assert DigitAt(s, i + n - 1);
      Number(s, i, n - 1) * 10 + DigitValue(s[i + n - 1])
  }

  function Search<R>(matcher: (string, nat) -> Option<R>, s: string, i: nat): Option<R>
    decreases |s| - i
  {
    if i > |s| then None
    else if matcher(s, i).Some? then matcher(s, i)
    else Search(matcher, s, i + 1)
  }

  lemma {:induction false} SearchFinds<R>(matcher: (string, nat) -> Option<R>, s: string, i: nat, at: nat)
    requires i <= at <= |s|
    requires forall k :: i <= k < at ==> matcher(s, k).None?
    requires matcher(s, at).Some?
    ensures Search(matcher, s, i) == matcher(s, at)
    decreases at - i
  {
    if i < at {
      assert matcher(s, i).None?;
      SearchFinds(matcher, s, i + 1, at);
    }
  }

  lemma {:induction false} SearchFails<R>(matcher: (string, nat) -> Option<R>, s: string, i: nat)
    requires forall k :: i <= k <= |s| ==> matcher(s, k).None?
    ensures Search(matcher, s, i).None?
    decreases |s| - i
  {
    if i <= |s| {
      assert matcher(s, i).None?;
      SearchFails(matcher, s, i + 1);
    }
  }

  // ------------------------------------------------------------------
  // Clock patterns
  // ------------------------------------------------------------------

  datatype Meridiem = Am | Pm

  /** `(am|pm|a\.m\.|p\.m\.)\b`: no alternative is a prefix of another. */
  function MeridiemAt(s: string, i: nat): Option<Meridiem> {
    if Starts(s, i, "am") && Boundary(s, i + 2) then Some(Am)
    else if Starts(s, i, "pm") && Boundary(s, i + 2) then Some(Pm)
    else if Starts(s, i, "a.m.") && Boundary(s, i + 4) then Some(Am)
    else if Starts(s, i, "p.m.") && Boundary(s, i + 4) then Some(Pm)
    else None
  }

  datatype Clock = Clock(hour: nat, minute: nat, meridiem: Option<Meridiem>)

  /** `\b(\d{1,2})[:.](\d{2})\s*(am|pm|a\.m\.|p\.m\.)?\b`. The separator fixes the
  length of the hour; when the optional group fails, `\b` holds right after the
  minutes exactly when a word character does not follow them. */
  function HourMinuteAt(s: string, i: nat): Option<Clock> {
    var n := DigitRun(s, i);
    HourMinuteOf(s, i, n, MeridiemAt(s, SkipSpaces(s, i + n + 3)))
  }

  /** The same, given the digits of the hour and what follows the minutes. */
  function HourMinuteOf(s: string, i: nat, n: nat, meridiem: Option<Meridiem>): Option<Clock>
    requires forall k :: i <= k < i + n ==> DigitAt(s, k)
  {
    var j := i + n + 1;
    if !(Boundary(s, i) && 1 <= n <= 2 && CharAt(s, i + n, ":.")) then None
    else if !(DigitAt(s, j) && DigitAt(s, j + 1)) then None
    else if meridiem.Some? || Boundary(s, j + 2) then Some(Clock(Number(s, i, n), Number(s, j, 2), meridiem))
    else None
  }

  /** `\b(\d{1,2})\s*(am|pm|a\.m\.|p\.m\.)\b`. */
  function HourMeridiemAt(s: string, i: nat): Option<Clock> {
    var n := DigitRun(s, i);
    if !(Boundary(s, i) && 1 <= n <= 2) then None
    else
      var meridiem := MeridiemAt(s, SkipSpaces(s, i + n));
      if meridiem.Some? then Some(Clock(Number(s, i, n), 0, meridiem)) else None
  }

  predicate ClockWordAt(s: string, i: nat) {
    Starts(s, i, "o") && ClockAt(s, SkipSpaces(s, if CharAt(s, i + 1, "'") then i + 2 else i + 1))
  }

  predicate ClockAt(s: string, i: nat) {
    Starts(s, i, "clock") && Boundary(s, i + 5)
  }

  /** `\b(\d{1,2})\s*o'?\s*clock\b`. */
  function OClockAt(s: string, i: nat): Option<nat> {
    var n := DigitRun(s, i);
    if Boundary(s, i) && 1 <= n <= 2 && ClockWordAt(s, SkipSpaces(s, i + n))
    then Some(Number(s, i, n))
    else None
  }

  /** Length of the preposition of the bare-hour pattern at i. */
  function PrepositionAt(s: string, i: nat): nat {
    if Starts(s, i, "at") then 2
    else if Starts(s, i, "around") then 6
    else if Starts(s, i, "by") then 2
    else if Starts(s, i, "after") then 5
    else if Starts(s, i, "before") then 6
    else 0
  }

  /** `\b(?:at|around|by|after|before)\s+(\d{1,2})\b`. */
  function BareHourAt(s: string, i: nat): Option<nat> {
    var n := PrepositionAt(s, i);
    var j := SkipSpaces(s, i + n);
    var d := DigitRun(s, j);
    if Boundary(s, i) && 0 < n && i + n < j && 1 <= d <= 2 && Boundary(s, j + d)
    then Some(Number(s, j, d))
    else None
  }

  // ------------------------------------------------------------------
  // Date patterns
  // ------------------------------------------------------------------

  datatype NumericDate = NumericDate(day: nat, month: nat, year: Option<nat>)

  /** `\b(\d{1,2})[/\-.](\d{1,2})(?:[/\-.](\d{2,4}))?\b`. A third digit after the
  month rules out both lengths of the month; the year group fits exactly when it
  takes the whole of its run of digits, and without it `\b` follows a separator. */
  function NumericDateAt(s: string, i: nat): Option<NumericDate> {
    var n := DigitRun(s, i);
    var m := DigitRun(s, i + n + 1);
    NumericDateOf(s, i, n, m, DigitRun(s, i + n + 1 + m + 1))
  }

  /** The same, given the digits that stand there for day, month and year. */
  function NumericDateOf(s: string, i: nat, n: nat, m: nat, y: nat): Option<NumericDate>
    requires forall k :: i <= k < i + n ==> DigitAt(s, k)
    requires forall k :: i + n + 1 <= k < i + n + 1 + m ==> DigitAt(s, k)
    requires forall k :: i + n + 1 + m + 1 <= k < i + n + 1 + m + 1 + y ==> DigitAt(s, k)
  {
    var j := i + n + 1;
    var k := j + m;
    if !(Boundary(s, i) && 1 <= n <= 2 && CharAt(s, i + n, "/-.") && 1 <= m <= 2) then None
    else if CharAt(s, k, "/-.") && 2 <= y <= 4 && Boundary(s, k + 1 + y)
    then Some(NumericDate(Number(s, i, n), Number(s, j, m), Some(Number(s, k + 1, y))))
    else if Boundary(s, k)
    then Some(NumericDate(Number(s, i, n), Number(s, j, m), None))
    else None
  }

  /** Length of the run of word characters at i. */
  function WordRun(s: string, i: nat): (n: nat)
    ensures i + n <= |s| || n == 0
    decreases |s| - i
  {
    if i < |s| && IsWordChar(s[i]) then 1 + WordRun(s, i + 1) else 0
  }

  const MONTHS: map<string, int> := map[
    "jan" := 1, "january" := 1, "feb" := 2, "february" := 2, "mar" := 3, "march" := 3, "apr" := 4, "april" := 4,
    "may" := 5, "jun" := 6, "june" := 6, "jul" := 7, "july" := 7, "aug" := 8, "august" := 8,
    "sep" := 9, "sept" := 9, "september" := 9, "oct" := 10, "october" := 10, "nov" := 11, "november" := 11,
    "dec" := 12, "december" := 12]

  function Listed(months: map<string, int>, word: string): Option<int> {
    if word in months then Some(months[word]) else None
  }

  function MonthNumber(word: string): Option<int> {
    Listed(MONTHS, word)
  }

  /** `(jan|january|...)\b`: the alternative that matches is the whole run of word characters. */
  function MonthIn(months: map<string, int>, s: string, i: nat): Option<int> {
    if i <= |s| then Listed(months, s[i..i + WordRun(s, i)]) else None
  }

  function MonthAt(s: string, i: nat): Option<int> {
    MonthIn(MONTHS, s, i)
  }

  predicate PairAt(s: string, i: nat, a: char, b: char) {
    i + 1 < |s| && s[i] == a && s[i + 1] == b
  }

  /** Length of `(?:st|nd|rd|th)` at i, or 0. */
  function OrdinalSuffix(s: string, i: nat): nat {
    if PairAt(s, i, 's', 't') || PairAt(s, i, 'n', 'd') || PairAt(s, i, 'r', 'd') || PairAt(s, i, 't', 'h') then 2
    else 0
  }

  datatype DayMonth = DayMonth(day: nat, month: int)

  /** `\b(\d{1,2})(?:st|nd|rd|th)?\s+(jan|january|...)\b`. */
  function DayMonthAt(s: string, i: nat): Option<DayMonth> {
    DayMonthIn(MONTHS, s, i)
  }

  function DayMonthIn(months: map<string, int>, s: string, i: nat): Option<DayMonth> {
    var n := DigitRun(s, i);
    var k := i + n + OrdinalSuffix(s, i + n);
    var j := SkipSpaces(s, k);
    DayMonthOf(s, i, n, k < j, MonthIn(months, s, j))
  }

  /** The same, given the digits of the day, whether white space follows, and the month after it. */
  function DayMonthOf(s: string, i: nat, n: nat, spaced: bool, month: Option<int>): Option<DayMonth>
    requires forall k :: i <= k < i + n ==> DigitAt(s, k)
  {
    if Boundary(s, i) && 1 <= n <= 2 && spaced && month.Some? then Some(DayMonth(Number(s, i, n), month.value))
    else None
  }

  /** `\b(jan|january|...)\s+(\d{1,2})(?:st|nd|rd|th)?\b`. The white space makes
  the month a whole word. */
  function MonthDayAt(s: string, i: nat): Option<DayMonth> {
    MonthDayIn(MONTHS, s, i)
  }

  function MonthDayIn(months: map<string, int>, s: string, i: nat): Option<DayMonth> {
    var k := i + WordRun(s, i);
    var j := SkipSpaces(s, k);
    MonthDayOf(s, i, MonthIn(months, s, i), k < j, j, DigitRun(s, j))
  }

  /** The same, given the month, whether white space follows, and the digits of the day after it. */
  function MonthDayOf(s: string, i: nat, month: Option<int>, spaced: bool, j: nat, n: nat): Option<DayMonth>
    requires forall k :: j <= k < j + n ==> DigitAt(s, k)
  {
    if Boundary(s, i) && month.Some? && spaced && 1 <= n <= 2
       && (Boundary(s, j + n) || (OrdinalSuffix(s, j + n) == 2 && Boundary(s, j + n + 2)))
    then Some(DayMonth(Number(s, j, n), month.value))
    else None
  }

  // ------------------------------------------------------------------
  // Words
  // ------------------------------------------------------------------

  predicate ContainsAny(s: string, words: seq<string>) {
    exists w | w in words :: Contains(s, w)
  }

  predicate ContainsAnyWord(s: string, words: seq<string>) {
    exists w | w in words :: ContainsWord(s, w)
  }

  const ASAP_WORDS: seq<string> :=
    ["asap", "anytime", "any time", "as soon as possible", "right now", "immediately"]

  const TOMORROW_WORDS: seq<string> := ["tomorrow", "tomorow", "tommorow", "tmrw", "tmr", "kal"]

  const TODAY_WORDS: seq<string> := ["today", "aaj", "tonight"]

  /** The vague words, tried in this order as substrings: "afternoon" contains "noon". */
  function VagueTime(s: string): Option<TimeOfDay> {
    if Contains(s, "morning") then Some(Hours(11) + Minutes(30))
    else if Contains(s, "noon") || Contains(s, "midday") then Some(Hours(12))
    else if Contains(s, "lunch") then Some(Hours(13))
    else if Contains(s, "afternoon") then Some(Hours(14))
    else if Contains(s, "evening") then Some(Hours(17) + Minutes(30))
    else if Contains(s, "night") then Some(Hours(18) + Minutes(30))
    else None
  }

  /** The first weekday named, in the order of the lexicon. */
  function WeekdayNamed(s: string): Option<int> {
    if ContainsAnyWord(s, ["monday", "mon"]) then Some(0)
    else if ContainsAnyWord(s, ["tuesday", "tue", "tues"]) then Some(1)
    else if ContainsAnyWord(s, ["wednesday", "wed"]) then Some(2)
    else if ContainsAnyWord(s, ["thursday", "thu", "thur", "thurs"]) then Some(3)
    else if ContainsAnyWord(s, ["friday", "fri"]) then Some(4)
    else if ContainsAnyWord(s, ["saturday", "sat"]) then Some(5)
    else if ContainsAnyWord(s, ["sunday", "sun"]) then Some(6)
    else None
  }
}
