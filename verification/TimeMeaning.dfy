/** What a reply to "when shall we call" means, said without the parser: the patterns are stated as
what may stand where in the text, and the leftmost place counts. */
module TimeMeaning {
  import opened Wrappers
  import opened Calendar
  import opened TimeText
  import opened CallbackTime

  // ------------------------------------------------------------------
  // What may stand where
  // ------------------------------------------------------------------

  predicate Joins(s: string, i: int) {
    0 <= i < |s| && ('0' <= s[i] <= '9' || 'a' <= s[i] <= 'z' || 'A' <= s[i] <= 'Z' || s[i] == '_')
  }

  /** The marks the patterns are made of: a word edge is where letters, figures and underscores
  begin or end, white space is what Python's ASCII characters have of it, and a literal is itself. */
  lemma MarksMean(s: string, i: nat, w: string, c: char)
    ensures Boundary(s, i) <==> Joins(s, i - 1) != Joins(s, i)
    ensures Starts(s, i, w) <==> i + |w| <= |s| && forall k :: 0 <= k < |w| ==> s[i + k] == w[k]
    ensures IsSpace(c) <==> c as int in {9, 10, 11, 12, 13, 28, 29, 30, 31, 32}
    ensures IsDigit(c) <==> c in "0123456789"
    ensures CharAt(s, i, w) <==> exists k :: 0 <= k < |w| && i < |s| && s[i] == w[k]
  {
  }

  predicate Has(s: string, w: string) {
    exists i: nat | i <= |s| :: Starts(s, i, w)
  }

  /** `w` is a word of its own somewhere. */
  predicate Says(s: string, w: string) {
    exists i: nat | i <= |s| :: Boundary(s, i) && Starts(s, i, w) && Boundary(s, i + |w|)
  }

  predicate Digits(s: string, i: nat, n: nat) {
    i + n <= |s| && forall k :: i <= k < i + n ==> DigitAt(s, k)
  }

  predicate White(s: string, i: nat, n: nat) {
    i + n <= |s| && forall k :: i <= k < i + n ==> SpaceAt(s, k)
  }

  function Value(digits: string): nat {
    if digits == "" then 0
    else
      var last := digits[|digits| - 1];
      10 * Value(digits[..|digits| - 1]) + if '0' <= last <= '9' then (last - '0') as nat else 0
  }

  /** At the leftmost place where the pattern stands, it says x. */
  ghost predicate First<R(!new)>(here: (string, nat, R) -> bool, s: string, x: R) {
    exists i: nat :: here(s, i, x) && forall k: nat, z: R :: k < i ==> !here(s, k, z)
  }

  ghost predicate Somewhere<R(!new)>(here: (string, nat, R) -> bool, s: string) {
    exists i: nat, x: R :: here(s, i, x)
  }

  // ------------------------------------------------------------------
  // The same in the parser's terms
  // ------------------------------------------------------------------

  lemma HasContains(s: string, w: string)
    ensures Has(s, w) <==> Contains(s, w)
  {
    if Contains(s, w) {
      var i :| 0 <= i <= |s| && Starts(s, i, w);
      assert Starts(s, i as nat, w);
    }
  }

  lemma SaysContainsWord(s: string, w: string)
    ensures Says(s, w) <==> ContainsWord(s, w)
  {
    if Says(s, w) {
      var i: nat :| i <= |s| && Boundary(s, i) && Starts(s, i, w) && Boundary(s, i + |w|);
      assert WordAt(s, i, w);
    }
    if ContainsWord(s, w) {
      var i :| 0 <= i <= |s| && WordAt(s, i, w);
      assert Starts(s, i, w);
    }
  }

  lemma RunOfDigits(s: string, i: nat, n: nat)
    requires Digits(s, i, n) && !DigitAt(s, i + n)
    ensures DigitRun(s, i) == n
  {
    var r := DigitRun(s, i);
    assert !DigitAt(s, i + r);
  }

  lemma EdgeEndsDigits(s: string, i: nat, n: nat)
    requires 0 < n && Digits(s, i, n)
    ensures Boundary(s, i + n) ==> !DigitAt(s, i + n)
  {
    assert DigitAt(s, i + n - 1);
  }

  lemma RunIsDigits(s: string, i: nat)
    ensures 0 < DigitRun(s, i) ==> Digits(s, i, DigitRun(s, i))
  {
  }

  lemma RunOfSpaces(s: string, i: nat, w: nat)
    requires White(s, i, w) && !SpaceAt(s, i + w)
    ensures SkipSpaces(s, i) == i + w
  {
    var j := SkipSpaces(s, i);
    assert !SpaceAt(s, j);
  }

  lemma SpacesSkipped(s: string, i: nat)
    requires i <= |s|
    ensures White(s, i, SkipSpaces(s, i) - i)
  {
  }

  lemma {:induction false} NumberIsValue(s: string, i: nat, n: nat)
    requires Digits(s, i, n)
    ensures Number(s, i, n) == Value(s[i..i + n])
  {
    if n != 0 {
      NumberIsValue(s, i, n - 1);
      assert DigitAt(s, i + n - 1);
      assert s[i..i + n][..n - 1] == s[i..i + n - 1];
    }
  }

  lemma {:induction false} SearchFrom<R(!new)>(
      matcher: (string, nat) -> Option<R>, here: (string, nat, R) -> bool, s: string, x: R, from: nat)
    requires forall i: nat, z: R :: matcher(s, i) == Some(z) <==> here(s, i, z)
    requires forall i: nat, z: R :: here(s, i, z) ==> i <= |s|
    requires forall k: nat, z: R :: k < from ==> !here(s, k, z)
    ensures Search(matcher, s, from) == Some(x) <==> First(here, s, x)
    ensures Search(matcher, s, from).Some? <==> Somewhere(here, s)
    decreases |s| - from
  {
    if from <= |s| {
      if matcher(s, from).Some? {
        assert here(s, from, matcher(s, from).value);
      } else {
        forall k: nat, z: R | k < from + 1 ensures !here(s, k, z) {
          assert k == from ==> matcher(s, k) != Some(z);
        }
        SearchFrom(matcher, here, s, x, from + 1);
      }
    }
  }

  /** Searching for a pattern finds what its leftmost place says. */
  lemma SearchIsFirst<R(!new)>(
      matcher: (string, nat) -> Option<R>, here: (string, nat, R) -> bool, s: string, x: R)
    requires forall i: nat, z: R :: matcher(s, i) == Some(z) <==> here(s, i, z)
    requires forall i: nat, z: R :: here(s, i, z) ==> i <= |s|
    ensures Search(matcher, s, 0) == Some(x) <==> First(here, s, x)
    ensures Search(matcher, s, 0).Some? <==> Somewhere(here, s)
  {
    SearchFrom(matcher, here, s, x, 0);
  }

  // ------------------------------------------------------------------
  // Dates written in figures
  // ------------------------------------------------------------------

  /** Day, month and perhaps year, in one or two, one or two and two to four figures, with a separator. */
  predicate NumericMatch(s: string, i: nat, n: nat, m: nat, y: nat) {
    var j := i + n + 1;
    var k := j + m;
    && Boundary(s, i) && 1 <= n <= 2 && Digits(s, i, n) && CharAt(s, i + n, "/-.")
    && 1 <= m <= 2 && Digits(s, j, m)
    && if y == 0 then Boundary(s, k)
       else CharAt(s, k, "/-.") && 2 <= y <= 4 && Digits(s, k + 1, y) && Boundary(s, k + 1 + y)
  }

  function NumericSaid(s: string, i: nat, n: nat, m: nat, y: nat): NumericDate
    requires NumericMatch(s, i, n, m, y)
  {
    var j := i + n + 1;
    var k := j + m;
    NumericDate(Number(s, i, n), Number(s, j, m), if y == 0 then None else Some(Number(s, k + 1, y)))
  }

  /** A year is read when there is one. */
  ghost predicate NumericHere(s: string, i: nat, x: NumericDate) {
    exists n: nat, m: nat, y: nat ::
      && NumericMatch(s, i, n, m, y) && x == NumericSaid(s, i, n, m, y)
      && (y == 0 ==> forall z: nat :: NumericMatch(s, i, n, m, z) ==> z == 0)
  }

  lemma NumericRuns(s: string, i: nat, n: nat, m: nat, y: nat)
    requires NumericMatch(s, i, n, m, y)
    ensures DigitRun(s, i) == n && DigitRun(s, i + n + 1) == m
    ensures y != 0 ==> DigitRun(s, i + n + 1 + m + 1) == y
  {
    var j := i + n + 1;
    var k := j + m;
    RunOfDigits(s, i, n);
    EdgeEndsDigits(s, j, m);
    RunOfDigits(s, j, m);
    if y != 0 {
      EdgeEndsDigits(s, k + 1, y);
      RunOfDigits(s, k + 1, y);
    }
  }

  lemma YearReads(s: string, i: nat, n: nat, m: nat, y: nat)
    requires NumericMatch(s, i, n, m, y) && y != 0
    ensures NumericDateAt(s, i) == Some(NumericSaid(s, i, n, m, y))
  {
    NumericRuns(s, i, n, m, y);
  }

  lemma NoYearReads(s: string, i: nat, n: nat, m: nat)
    requires NumericMatch(s, i, n, m, 0) && forall z: nat :: NumericMatch(s, i, n, m, z) ==> z == 0
    ensures NumericDateAt(s, i) == Some(NumericSaid(s, i, n, m, 0))
  {
    var k := i + n + 1 + m;
    var z := DigitRun(s, k + 1);
    NumericRuns(s, i, n, m, 0);
    RunIsDigits(s, k + 1);
    assert 2 <= z <= 4 ==> !NumericMatch(s, i, n, m, z);
  }

  lemma NoYear(s: string, i: nat, n: nat, m: nat)
    requires var k := i + n + 1 + m;
      var r := DigitRun(s, k + 1);
      NumericMatch(s, i, n, m, 0) && !(CharAt(s, k, "/-.") && 2 <= r <= 4 && Boundary(s, k + 1 + r))
    ensures forall z: nat :: NumericMatch(s, i, n, m, z) ==> z == 0
  {
    forall z: nat | NumericMatch(s, i, n, m, z) ensures z == 0 {
      NumericRuns(s, i, n, m, z);
    }
  }

  lemma NumericShape(s: string, i: nat, n: nat, m: nat, r: nat, x: NumericDate)
    requires n == DigitRun(s, i) && m == DigitRun(s, i + n + 1) && r == DigitRun(s, i + n + 1 + m + 1)
    requires NumericDateOf(s, i, n, m, r) == Some(x)
    ensures var k := i + n + 1 + m;
      && Boundary(s, i) && 1 <= n <= 2 && CharAt(s, i + n, "/-.") && 1 <= m <= 2
      && (Boundary(s, k) || (CharAt(s, k, "/-.") && 2 <= r <= 4 && Boundary(s, k + 1 + r)))
  {
  }

  lemma NumericWithYear(s: string, i: nat, n: nat, m: nat, r: nat)
    requires n == DigitRun(s, i) && m == DigitRun(s, i + n + 1) && r == DigitRun(s, i + n + 1 + m + 1)
    requires Boundary(s, i) && 1 <= n <= 2 && CharAt(s, i + n, "/-.") && 1 <= m <= 2
    requires var k := i + n + 1 + m; CharAt(s, k, "/-.") && 2 <= r <= 4 && Boundary(s, k + 1 + r)
    ensures NumericMatch(s, i, n, m, r)
  {
    RunIsDigits(s, i);
    RunIsDigits(s, i + n + 1);
    RunIsDigits(s, i + n + 1 + m + 1);
  }

  lemma NumericWithoutYear(s: string, i: nat, n: nat, m: nat)
    requires n == DigitRun(s, i) && m == DigitRun(s, i + n + 1)
    requires Boundary(s, i) && 1 <= n <= 2 && CharAt(s, i + n, "/-.") && 1 <= m <= 2 && Boundary(s, i + n + 1 + m)
    ensures NumericMatch(s, i, n, m, 0)
  {
    RunIsDigits(s, i);
    RunIsDigits(s, i + n + 1);
  }

  lemma NumericFoundAs(s: string, i: nat, n: nat, m: nat, r: nat) returns (y: nat)
    requires n == DigitRun(s, i) && m == DigitRun(s, i + n + 1) && r == DigitRun(s, i + n + 1 + m + 1)
    requires NumericDateOf(s, i, n, m, r).Some?
    ensures NumericMatch(s, i, n, m, y)
    ensures y == 0 ==> forall z: nat :: NumericMatch(s, i, n, m, z) ==> z == 0
  {
    var k := i + n + 1 + m;
    NumericShape(s, i, n, m, r, NumericDateOf(s, i, n, m, r).value);
    if CharAt(s, k, "/-.") && 2 <= r <= 4 && Boundary(s, k + 1 + r) {
      NumericWithYear(s, i, n, m, r);
      y := r;
    } else {
      NumericWithoutYear(s, i, n, m);
      NoYear(s, i, n, m);
      y := 0;
    }
  }

  lemma NumericFound(s: string, i: nat, x: NumericDate)
    requires NumericDateAt(s, i) == Some(x)
    ensures NumericHere(s, i, x)
  {
    var n := DigitRun(s, i);
    var m := DigitRun(s, i + n + 1);
    var y := NumericFoundAs(s, i, n, m, DigitRun(s, i + n + 1 + m + 1));
    if y == 0 {
      NoYearReads(s, i, n, m);
    } else {
      YearReads(s, i, n, m, y);
    }
  }

  lemma NumericExact(s: string, x: NumericDate)
    ensures Search(NumericDateAt, s, 0) == Some(x) <==> First(NumericHere, s, x)
    ensures Search(NumericDateAt, s, 0).Some? <==> Somewhere(NumericHere, s)
  {
    forall i: nat, z: NumericDate
      ensures NumericDateAt(s, i) == Some(z) <==> NumericHere(s, i, z)
    {
      if NumericHere(s, i, z) {
        var n: nat, m: nat, y: nat :|
          && NumericMatch(s, i, n, m, y) && z == NumericSaid(s, i, n, m, y)
          && (y == 0 ==> forall z: nat :: NumericMatch(s, i, n, m, z) ==> z == 0);
        if y == 0 {
          NoYearReads(s, i, n, m);
        } else {
          YearReads(s, i, n, m, y);
        }
      }
      if NumericDateAt(s, i).Some? {
        NumericFound(s, i, NumericDateAt(s, i).value);
      }
    }
    SearchIsFirst(NumericDateAt, NumericHere, s, x);
  }

  // ------------------------------------------------------------------
  // Dates with the month in letters
  // ------------------------------------------------------------------

  /** The names of the months. */
  lemma MonthsAre(w: string)
    ensures MonthNumber(w) == Some(1) <==> w in ["jan", "january"]
    ensures MonthNumber(w) == Some(2) <==> w in ["feb", "february"]
    ensures MonthNumber(w) == Some(3) <==> w in ["mar", "march"]
    ensures MonthNumber(w) == Some(4) <==> w in ["apr", "april"]
    ensures MonthNumber(w) == Some(5) <==> w in ["may"]
    ensures MonthNumber(w) == Some(6) <==> w in ["jun", "june"]
    ensures MonthNumber(w) == Some(7) <==> w in ["jul", "july"]
    ensures MonthNumber(w) == Some(8) <==> w in ["aug", "august"]
    ensures MonthNumber(w) == Some(9) <==> w in ["sep", "sept", "september"]
    ensures MonthNumber(w) == Some(10) <==> w in ["oct", "october"]
    ensures MonthNumber(w) == Some(11) <==> w in ["nov", "november"]
    ensures MonthNumber(w) == Some(12) <==> w in ["dec", "december"]
    ensures MonthNumber(w).Some? ==> 1 <= MonthNumber(w).value <= 12
  {
  }

  /** A lexicon whose words are in letters. */
  ghost predicate Lettered(months: map<string, int>) {
    forall w :: w in months ==> w != "" && forall k :: 0 <= k < |w| ==> 'a' <= w[k] <= 'z'
  }

  lemma MonthsInLetters(w: string)
    requires w in MONTHS
    ensures w != "" && forall k :: 0 <= k < |w| ==> 'a' <= w[k] <= 'z'
  {
  }

  lemma MonthsAreLetters()
    ensures Lettered(MONTHS)
  {
    forall w | w in MONTHS ensures w != "" && forall k :: 0 <= k < |w| ==> 'a' <= w[k] <= 'z' {
      MonthsInLetters(w);
    }
  }

  lemma {:induction false} RunOfWord(s: string, i: nat, n: nat)
    requires i + n <= |s| && forall k :: i <= k < i + n ==> IsWordChar(s[k])
    requires !(i + n < |s| && IsWordChar(s[i + n]))
    ensures WordRun(s, i) == n
    decreases n
  {
    if n != 0 {
      RunOfWord(s, i + 1, n - 1);
    }
  }

  lemma {:induction false} WordRunMeans(s: string, i: nat)
    requires i <= |s|
    ensures var n := WordRun(s, i);
      && i + n <= |s| && (forall k :: i <= k < i + n ==> IsWordChar(s[k]))
      && !(i + n < |s| && IsWordChar(s[i + n]))
    decreases |s| - i
  {
    if i < |s| && IsWordChar(s[i]) {
      WordRunMeans(s, i + 1);
    }
  }

  /** What stands from j to e is a name of the month, and a word ends there. */
  predicate MonthMatch(months: map<string, int>, s: string, j: nat, e: nat, m: int) {
    j <= e <= |s| && Listed(months, s[j..e]) == Some(m) && Boundary(s, e)
  }

  lemma MonthReads(months: map<string, int>, s: string, j: nat, e: nat, m: int)
    requires Lettered(months) && MonthMatch(months, s, j, e, m)
    ensures j < e && WordRun(s, j) == e - j && MonthIn(months, s, j) == Some(m) && !SpaceAt(s, j)
  {
    var w := s[j..e];
    forall k | j <= k < e ensures 'a' <= s[k] <= 'z' {
      assert w[k - j] == s[k];
    }
    assert IsWordChar(s[e - 1]);
    RunOfWord(s, j, e - j);
  }

  lemma MonthFound(months: map<string, int>, s: string, j: nat) returns (e: nat)
    requires Lettered(months) && MonthIn(months, s, j).Some?
    ensures MonthMatch(months, s, j, e, MonthIn(months, s, j).value) && e == j + WordRun(s, j)
  {
    WordRunMeans(s, j);
    e := j + WordRun(s, j);
    assert s[j..e] != "";
    assert IsWordChar(s[e - 1]);
  }

  /** "st", "nd", "rd" or "th", or nothing. */
  predicate Suffix(s: string, k: nat, length: nat) {
    || length == 0
    || (length == 2 && (PairAt(s, k, 's', 't') || PairAt(s, k, 'n', 'd')
                        || PairAt(s, k, 'r', 'd') || PairAt(s, k, 't', 'h')))
  }

  /** One or two figures, perhaps with a suffix, and white space. */
  predicate DayBefore(s: string, i: nat, n: nat, suffix: nat, gap: nat) {
    && Boundary(s, i) && 1 <= n <= 2 && Digits(s, i, n) && Suffix(s, i + n, suffix)
    && 1 <= gap && White(s, i + n + suffix, gap)
  }

  /** Those, and the name of a month. */
  predicate DayMonthMatch(months: map<string, int>, s: string, i: nat, n: nat, suffix: nat, gap: nat, e: nat, m: int) {
    DayBefore(s, i, n, suffix, gap) && MonthMatch(months, s, i + n + suffix + gap, e, m)
  }

  ghost predicate DayMonthHereIn(months: map<string, int>, s: string, i: nat, x: DayMonth) {
    exists n: nat, suffix: nat, gap: nat, e: nat ::
      DayMonthMatch(months, s, i, n, suffix, gap, e, x.month) && x.day == Number(s, i, n)
  }

  lemma SuffixReads(s: string, k: nat, suffix: nat)
    requires Suffix(s, k, suffix) && SpaceAt(s, k + suffix)
    ensures OrdinalSuffix(s, k) == suffix && !DigitAt(s, k)
  {
  }

  lemma DayBeforeReads(s: string, i: nat, n: nat, suffix: nat, gap: nat, month: Option<int>)
    requires DayBefore(s, i, n, suffix, gap)
    requires var j := i + n + suffix + gap; !SpaceAt(s, j)
    ensures var k := i + n + suffix;
      && DigitRun(s, i) == n && OrdinalSuffix(s, i + n) == suffix && SkipSpaces(s, k) == k + gap
      && DayMonthOf(s, i, n, true, month) == if month.Some? then Some(DayMonth(Number(s, i, n), month.value)) else None
  {
    assert SpaceAt(s, i + n + suffix);
    SuffixReads(s, i + n, suffix);
    RunOfDigits(s, i, n);
    RunOfSpaces(s, i + n + suffix, gap);
  }

  lemma DayMonthReads(months: map<string, int>, s: string, i: nat, n: nat, suffix: nat, gap: nat, e: nat, m: int)
    requires Lettered(months)
    requires DayMonthMatch(months, s, i, n, suffix, gap, e, m)
    ensures DayMonthIn(months, s, i) == Some(DayMonth(Number(s, i, n), m))
  {
    MonthReads(months, s, i + n + suffix + gap, e, m);
    DayBeforeReads(s, i, n, suffix, gap, Some(m));
  }

  lemma DayMonthParts(months: map<string, int>, s: string, i: nat) returns (n: nat, k: nat, j: nat)
    requires DayMonthIn(months, s, i).Some?
    ensures Boundary(s, i) && 1 <= n <= 2 && n == DigitRun(s, i)
    ensures DayMonthIn(months, s, i).value.day == Number(s, i, n)
    ensures k == i + n + OrdinalSuffix(s, i + n) && k < j == SkipSpaces(s, k)
    ensures MonthIn(months, s, j) == Some(DayMonthIn(months, s, i).value.month)
  {
    n := DigitRun(s, i);
    k := i + n + OrdinalSuffix(s, i + n);
    j := SkipSpaces(s, k);
  }

  lemma DayBeforeFound(s: string, i: nat, n: nat, k: nat, j: nat) returns (suffix: nat, gap: nat)
    requires Boundary(s, i) && 1 <= n <= 2 && n == DigitRun(s, i)
    requires k == i + n + OrdinalSuffix(s, i + n) && k < j == SkipSpaces(s, k)
    ensures DayBefore(s, i, n, suffix, gap) && i + n + suffix + gap == j
  {
    RunIsDigits(s, i);
    SpacesSkipped(s, k);
    suffix, gap := OrdinalSuffix(s, i + n), j - k;
  }

  lemma DayMonthBuilt(months: map<string, int>, s: string, i: nat, n: nat, k: nat, j: nat, m: int)
      returns (suffix: nat, gap: nat, e: nat)
    requires Lettered(months)
    requires Boundary(s, i) && 1 <= n <= 2 && n == DigitRun(s, i)
    requires k == i + n + OrdinalSuffix(s, i + n) && k < j == SkipSpaces(s, k) && MonthIn(months, s, j) == Some(m)
    ensures DayMonthMatch(months, s, i, n, suffix, gap, e, m)
  {
    suffix, gap := DayBeforeFound(s, i, n, k, j);
    e := MonthFound(months, s, j);
  }

  lemma DayMonthFound(months: map<string, int>, s: string, i: nat, x: DayMonth)
    requires Lettered(months) && DayMonthIn(months, s, i) == Some(x)
    ensures DayMonthHereIn(months, s, i, x)
  {
    var n, k, j := DayMonthParts(months, s, i);
    var suffix, gap, e := DayMonthBuilt(months, s, i, n, k, j, x.month);
  }

  lemma DayMonthInMeans(months: map<string, int>, s: string, i: nat, x: DayMonth)
    requires Lettered(months)
    ensures DayMonthIn(months, s, i) == Some(x) <==> DayMonthHereIn(months, s, i, x)
  {
    if DayMonthHereIn(months, s, i, x) {
      var n: nat, suffix: nat, gap: nat, e: nat :|
        DayMonthMatch(months, s, i, n, suffix, gap, e, x.month) && x.day == Number(s, i, n);
      DayMonthReads(months, s, i, n, suffix, gap, e, x.month);
    }
    if DayMonthIn(months, s, i) == Some(x) {
      DayMonthFound(months, s, i, x);
    }
  }

  ghost predicate DayMonthHere(s: string, i: nat, x: DayMonth) {
    DayMonthHereIn(MONTHS, s, i, x)
  }

  lemma DayMonthMeans(months: map<string, int>, s: string)
    requires Lettered(months)
    ensures forall i: nat, z: DayMonth :: DayMonthIn(months, s, i) == Some(z) <==> DayMonthHereIn(months, s, i, z)
    ensures forall i: nat, z: DayMonth :: DayMonthHereIn(months, s, i, z) ==> i <= |s|
  {
    forall i: nat, z: DayMonth
      ensures DayMonthIn(months, s, i) == Some(z) <==> DayMonthHereIn(months, s, i, z)
    {
      DayMonthInMeans(months, s, i, z);
    }
  }

  lemma DayMonthAtMeans(s: string)
    ensures forall i: nat, z: DayMonth :: DayMonthAt(s, i) == Some(z) <==> DayMonthHere(s, i, z)
    ensures forall i: nat, z: DayMonth :: DayMonthHere(s, i, z) ==> i <= |s|
  {
    MonthsAreLetters();
    DayMonthMeans(MONTHS, s);
  }

  lemma DayMonthExact(s: string, x: DayMonth)
    ensures Search(DayMonthAt, s, 0) == Some(x) <==> First(DayMonthHere, s, x)
    ensures Search(DayMonthAt, s, 0).Some? <==> Somewhere(DayMonthHere, s)
  {
    DayMonthAtMeans(s);
    SearchIsFirst(DayMonthAt, DayMonthHere, s, x);
  }

  /** White space, one or two figures and perhaps a suffix, at k. */
  predicate DayAfter(s: string, k: nat, gap: nat, n: nat, suffix: nat) {
    var j := k + gap;
    && 1 <= gap && White(s, k, gap) && 1 <= n <= 2 && Digits(s, j, n)
    && Suffix(s, j + n, suffix) && Boundary(s, j + n + suffix)
  }

  /** Those after the name of a month. */
  predicate MonthDayMatch(months: map<string, int>, s: string, i: nat, e: nat, m: int, gap: nat, n: nat, suffix: nat) {
    Boundary(s, i) && MonthMatch(months, s, i, e, m) && DayAfter(s, e, gap, n, suffix)
  }

  ghost predicate MonthDayHereIn(months: map<string, int>, s: string, i: nat, x: DayMonth) {
    exists e: nat, gap: nat, n: nat, suffix: nat ::
      MonthDayMatch(months, s, i, e, x.month, gap, n, suffix) && x.day == Number(s, e + gap, n)
  }

  lemma SuffixEndsDigits(s: string, j: nat, n: nat, suffix: nat)
    requires 0 < n && Digits(s, j, n) && Suffix(s, j + n, suffix) && Boundary(s, j + n + suffix)
    ensures DigitRun(s, j) == n
    ensures Boundary(s, j + n) || (OrdinalSuffix(s, j + n) == 2 && Boundary(s, j + n + 2))
  {
    if suffix == 0 {
      EdgeEndsDigits(s, j, n);
    }
    RunOfDigits(s, j, n);
  }

  lemma DayAfterReads(s: string, i: nat, month: int, k: nat, gap: nat, n: nat, suffix: nat)
    requires Boundary(s, i) && DayAfter(s, k, gap, n, suffix)
    ensures SkipSpaces(s, k) == k + gap && DigitRun(s, k + gap) == n
    ensures MonthDayOf(s, i, Some(month), true, k + gap, n) == Some(DayMonth(Number(s, k + gap, n), month))
  {
    assert DigitAt(s, k + gap);
    RunOfSpaces(s, k, gap);
    SuffixEndsDigits(s, k + gap, n, suffix);
  }

  lemma MonthDayReads(months: map<string, int>, s: string, i: nat, e: nat, m: int, gap: nat, n: nat, suffix: nat)
    requires Lettered(months)
    requires MonthDayMatch(months, s, i, e, m, gap, n, suffix)
    ensures MonthDayIn(months, s, i) == Some(DayMonth(Number(s, e + gap, n), m))
  {
    MonthReads(months, s, i, e, m);
    DayAfterReads(s, i, m, e, gap, n, suffix);
  }

  lemma MonthDayParts(months: map<string, int>, s: string, i: nat) returns (k: nat, j: nat, n: nat)
    requires MonthDayIn(months, s, i).Some?
    ensures MonthIn(months, s, i) == Some(MonthDayIn(months, s, i).value.month) && Boundary(s, i)
    ensures k == i + WordRun(s, i) && k < j == SkipSpaces(s, k) && n == DigitRun(s, j) && 1 <= n <= 2
    ensures MonthDayIn(months, s, i).value.day == Number(s, j, n)
    ensures Boundary(s, j + n) || (OrdinalSuffix(s, j + n) == 2 && Boundary(s, j + n + 2))
  {
    k := i + WordRun(s, i);
    j := SkipSpaces(s, k);
    n := DigitRun(s, j);
  }

  lemma DayAfterFound(s: string, k: nat, j: nat, n: nat) returns (gap: nat, suffix: nat)
    requires k < j == SkipSpaces(s, k) && n == DigitRun(s, j) && 1 <= n <= 2
    requires Boundary(s, j + n) || (OrdinalSuffix(s, j + n) == 2 && Boundary(s, j + n + 2))
    ensures DayAfter(s, k, gap, n, suffix) && k + gap == j
  {
    SpacesSkipped(s, k);
    RunIsDigits(s, j);
    gap, suffix := j - k, if Boundary(s, j + n) then 0 else 2;
  }

  lemma MonthDayBuilt(months: map<string, int>, s: string, i: nat, j: nat, n: nat, m: int)
      returns (e: nat, gap: nat, suffix: nat)
    requires Lettered(months)
    requires MonthIn(months, s, i) == Some(m) && Boundary(s, i)
    requires i + WordRun(s, i) < j == SkipSpaces(s, i + WordRun(s, i)) && n == DigitRun(s, j) && 1 <= n <= 2
    requires Boundary(s, j + n) || (OrdinalSuffix(s, j + n) == 2 && Boundary(s, j + n + 2))
    ensures MonthDayMatch(months, s, i, e, m, gap, n, suffix) && e + gap == j
  {
    e := MonthFound(months, s, i);
    gap, suffix := DayAfterFound(s, e, j, n);
  }

  lemma MonthDayFound(months: map<string, int>, s: string, i: nat, x: DayMonth)
    requires Lettered(months) && MonthDayIn(months, s, i) == Some(x)
    ensures MonthDayHereIn(months, s, i, x)
  {
    var k, j, n := MonthDayParts(months, s, i);
    var e, gap, suffix := MonthDayBuilt(months, s, i, j, n, x.month);
    assert x.day == Number(s, e + gap, n);
  }

  lemma MonthDayInMeans(months: map<string, int>, s: string, i: nat, x: DayMonth)
    requires Lettered(months)
    ensures MonthDayIn(months, s, i) == Some(x) <==> MonthDayHereIn(months, s, i, x)
  {
    if MonthDayHereIn(months, s, i, x) {
      var e: nat, gap: nat, n: nat, suffix: nat :|
        MonthDayMatch(months, s, i, e, x.month, gap, n, suffix) && x.day == Number(s, e + gap, n);
      MonthDayReads(months, s, i, e, x.month, gap, n, suffix);
    }
    if MonthDayIn(months, s, i) == Some(x) {
      MonthDayFound(months, s, i, x);
    }
  }

  ghost predicate MonthDayHere(s: string, i: nat, x: DayMonth) {
    MonthDayHereIn(MONTHS, s, i, x)
  }

  lemma MonthDayMeans(months: map<string, int>, s: string)
    requires Lettered(months)
    ensures forall i: nat, z: DayMonth :: MonthDayIn(months, s, i) == Some(z) <==> MonthDayHereIn(months, s, i, z)
    ensures forall i: nat, z: DayMonth :: MonthDayHereIn(months, s, i, z) ==> i <= |s|
  {
    forall i: nat, z: DayMonth
      ensures MonthDayIn(months, s, i) == Some(z) <==> MonthDayHereIn(months, s, i, z)
    {
      MonthDayInMeans(months, s, i, z);
    }
  }

  lemma MonthDayAtMeans(s: string)
    ensures forall i: nat, z: DayMonth :: MonthDayAt(s, i) == Some(z) <==> MonthDayHere(s, i, z)
    ensures forall i: nat, z: DayMonth :: MonthDayHere(s, i, z) ==> i <= |s|
  {
    MonthsAreLetters();
    MonthDayMeans(MONTHS, s);
  }

  lemma MonthDayExact(s: string, x: DayMonth)
    ensures Search(MonthDayAt, s, 0) == Some(x) <==> First(MonthDayHere, s, x)
    ensures Search(MonthDayAt, s, 0).Some? <==> Somewhere(MonthDayHere, s)
  {
    MonthDayAtMeans(s);
    SearchIsFirst(MonthDayAt, MonthDayHere, s, x);
  }

  // ------------------------------------------------------------------
  // Clock times
  // ------------------------------------------------------------------

  predicate MeridiemWord(w: string, half: Meridiem) {
    match half
    case Am => w == "am" || w == "a.m."
    case Pm => w == "pm" || w == "p.m."
  }

  predicate MeridiemMatch(s: string, k: nat, w: string, half: Meridiem) {
    MeridiemWord(w, half) && Starts(s, k, w) && Boundary(s, k + |w|)
  }

  lemma MeridiemReads(s: string, k: nat, w: string, half: Meridiem)
    requires MeridiemMatch(s, k, w, half)
    ensures MeridiemAt(s, k) == Some(half)
    ensures k < |s| && (s[k] == 'a' || s[k] == 'p')
  {
    assert s[k] == s[k..k + |w|][0];
    forall v | Starts(s, k, v) && 0 < |v| ensures v[0] == s[k] {
      assert s[k..k + |v|][0] == v[0];
    }
  }

  lemma MeridiemFound(s: string, k: nat) returns (w: string)
    requires MeridiemAt(s, k).Some?
    ensures MeridiemMatch(s, k, w, MeridiemAt(s, k).value)
  {
    w := if Starts(s, k, "am") && Boundary(s, k + 2) then "am"
         else if Starts(s, k, "pm") && Boundary(s, k + 2) then "pm"
         else if Starts(s, k, "a.m.") && Boundary(s, k + 4) then "a.m." else "p.m.";
  }

  /** Hour and minutes in figures, up to the end of the minutes. */
  predicate HourMinuteMatch(s: string, i: nat, n: nat) {
    Boundary(s, i) && 1 <= n <= 2 && Digits(s, i, n) && CharAt(s, i + n, ":.") && Digits(s, i + n + 1, 2)
  }

  predicate SpacedHalf(s: string, k: nat, gap: nat, w: string, half: Meridiem) {
    White(s, k, gap) && MeridiemMatch(s, k + gap, w, half)
  }

  /** White space and a half of the day follow at k. */
  ghost predicate HalfFollows(s: string, k: nat, half: Meridiem) {
    exists gap: nat, w: string :: SpacedHalf(s, k, gap, w, half)
  }

  /** What follows at k says m of the half of the day. */
  ghost predicate HalfSaid(s: string, k: nat, m: Option<Meridiem>) {
    match m
    case Some(half) => HalfFollows(s, k, half)
    case None => !HalfFollows(s, k, Am) && !HalfFollows(s, k, Pm)
  }

  ghost predicate HourMinuteSays(s: string, i: nat, n: nat, x: Clock) {
    && HourMinuteMatch(s, i, n) && x.hour == Number(s, i, n) && x.minute == Number(s, i + n + 1, 2)
    && HalfSaid(s, i + n + 3, x.meridiem) && (x.meridiem.None? ==> Boundary(s, i + n + 3))
  }

  /** Hour and minutes with the half of the day that follows them; without one when none does and
  the minutes end there. */
  ghost predicate HourMinuteHere(s: string, i: nat, x: Clock) {
    exists n: nat :: HourMinuteSays(s, i, n, x)
  }

  lemma HalfReads(s: string, k: nat, half: Meridiem)
    requires k <= |s|
    ensures HalfFollows(s, k, half) <==> MeridiemAt(s, SkipSpaces(s, k)) == Some(half)
  {
    if HalfFollows(s, k, half) {
      var gap: nat, w: string :| SpacedHalf(s, k, gap, w, half);
      MeridiemReads(s, k + gap, w, half);
      RunOfSpaces(s, k, gap);
    }
    var j := SkipSpaces(s, k);
    if MeridiemAt(s, j) == Some(half) {
      var w := MeridiemFound(s, j);
      SpacesSkipped(s, k);
      assert SpacedHalf(s, k, j - k, w, half);
    }
  }

  lemma HalfIs(s: string, k: nat, m: Option<Meridiem>)
    requires k <= |s|
    ensures MeridiemAt(s, SkipSpaces(s, k)) == m <==> HalfSaid(s, k, m)
  {
    HalfReads(s, k, Am);
    HalfReads(s, k, Pm);
  }

  lemma HourMinuteReads(s: string, i: nat, n: nat, x: Clock)
    requires HourMinuteSays(s, i, n, x)
    ensures HourMinuteAt(s, i) == Some(x)
  {
    HalfIs(s, i + n + 3, x.meridiem);
    RunOfDigits(s, i, n);
  }

  lemma HourMinuteFound(s: string, i: nat, x: Clock) returns (n: nat)
    requires HourMinuteAt(s, i) == Some(x)
    ensures HourMinuteSays(s, i, n, x)
  {
    n := DigitRun(s, i);
    RunIsDigits(s, i);
    HalfIs(s, i + n + 3, x.meridiem);
  }

  lemma HourMinuteAtMeans(s: string, i: nat, x: Clock)
    ensures HourMinuteAt(s, i) == Some(x) <==> HourMinuteHere(s, i, x)
  {
    if HourMinuteHere(s, i, x) {
      var n: nat :| HourMinuteSays(s, i, n, x);
      HourMinuteReads(s, i, n, x);
    }
    if HourMinuteAt(s, i) == Some(x) {
      var n := HourMinuteFound(s, i, x);
    }
  }

  lemma HourMinuteExact(s: string, x: Clock)
    ensures Search(HourMinuteAt, s, 0) == Some(x) <==> First(HourMinuteHere, s, x)
    ensures Search(HourMinuteAt, s, 0).Some? <==> Somewhere(HourMinuteHere, s)
  {
    forall i: nat, z: Clock ensures HourMinuteAt(s, i) == Some(z) <==> HourMinuteHere(s, i, z) {
      HourMinuteAtMeans(s, i, z);
    }
    SearchIsFirst(HourMinuteAt, HourMinuteHere, s, x);
  }

  ghost predicate HourHalfSays(s: string, i: nat, n: nat, x: Clock) {
    && Boundary(s, i) && 1 <= n <= 2 && Digits(s, i, n) && x.hour == Number(s, i, n) && x.minute == 0
    && x.meridiem.Some? && HalfFollows(s, i + n, x.meridiem.value)
  }

  /** An hour in figures with the half of the day that follows it. */
  ghost predicate HourHalfHere(s: string, i: nat, x: Clock) {
    exists n: nat :: HourHalfSays(s, i, n, x)
  }

  lemma HalfEndsDigits(s: string, k: nat, half: Meridiem)
    requires HalfFollows(s, k, half)
    ensures k <= |s| && !DigitAt(s, k)
  {
    var gap: nat, w: string :| SpacedHalf(s, k, gap, w, half);
    MeridiemReads(s, k + gap, w, half);
    assert 0 < gap ==> SpaceAt(s, k);
  }

  lemma HourHalfReads(s: string, i: nat, n: nat, x: Clock)
    requires HourHalfSays(s, i, n, x)
    ensures HourMeridiemAt(s, i) == Some(x)
  {
    HalfEndsDigits(s, i + n, x.meridiem.value);
    RunOfDigits(s, i, n);
    HalfReads(s, i + n, x.meridiem.value);
  }

  lemma HourHalfFound(s: string, i: nat, x: Clock) returns (n: nat)
    requires HourMeridiemAt(s, i) == Some(x)
    ensures HourHalfSays(s, i, n, x)
  {
    n := DigitRun(s, i);
    RunIsDigits(s, i);
    HalfReads(s, i + n, x.meridiem.value);
  }

  lemma HourHalfAtMeans(s: string, i: nat, x: Clock)
    ensures HourMeridiemAt(s, i) == Some(x) <==> HourHalfHere(s, i, x)
  {
    if HourHalfHere(s, i, x) {
      var n: nat :| HourHalfSays(s, i, n, x);
      HourHalfReads(s, i, n, x);
    }
    if HourMeridiemAt(s, i) == Some(x) {
      var n := HourHalfFound(s, i, x);
    }
  }

  lemma HourHalfExact(s: string, x: Clock)
    ensures Search(HourMeridiemAt, s, 0) == Some(x) <==> First(HourHalfHere, s, x)
    ensures Search(HourMeridiemAt, s, 0).Some? <==> Somewhere(HourHalfHere, s)
  {
    forall i: nat, z: Clock ensures HourMeridiemAt(s, i) == Some(z) <==> HourHalfHere(s, i, z) {
      HourHalfAtMeans(s, i, z);
    }
    SearchIsFirst(HourMeridiemAt, HourHalfHere, s, x);
  }

  predicate LetterAt(s: string, i: nat, c: char) {
    i < |s| && s[i] == c
  }

  /** "o'clock" after white space at k, the apostrophe and the gap after it being free. */
  predicate ClockFollows(s: string, k: nat, gap: nat, marked: bool, after: nat) {
    var o := k + gap;
    var m := if marked then o + 2 else o + 1;
    && White(s, k, gap) && LetterAt(s, o, 'o') && (marked ==> LetterAt(s, o + 1, '\''))
    && White(s, m, after) && Starts(s, m + after, "clock") && Boundary(s, m + after + 5)
  }

  predicate OClockMatch(s: string, i: nat, n: nat, gap: nat, marked: bool, after: nat) {
    Boundary(s, i) && 1 <= n <= 2 && Digits(s, i, n) && ClockFollows(s, i + n, gap, marked, after)
  }

  ghost predicate OClockHere(s: string, i: nat, hour: nat) {
    exists n: nat, gap: nat, marked: bool, after: nat ::
      OClockMatch(s, i, n, gap, marked, after) && hour == Number(s, i, n)
  }

  lemma OneLetter(s: string, k: nat)
    ensures Starts(s, k, "o") <==> LetterAt(s, k, 'o')
    ensures CharAt(s, k, "'") <==> LetterAt(s, k, '\'')
  {
    assert "o"[0] == 'o';
  }

  lemma ClockStarts(s: string, c: nat)
    requires Starts(s, c, "clock")
    ensures c < |s| && s[c] == 'c'
  {
    assert s[c + 0] == "clock"[0];
  }

  lemma ClockTail(s: string, m: nat, after: nat)
    requires White(s, m, after) && Starts(s, m + after, "clock") && Boundary(s, m + after + 5)
    ensures SkipSpaces(s, m) == m + after && ClockAt(s, m + after) && !LetterAt(s, m, '\'')
  {
    ClockStarts(s, m + after);
    assert 0 < after ==> SpaceAt(s, m);
    RunOfSpaces(s, m, after);
  }

  lemma ClockReads(s: string, k: nat, gap: nat, marked: bool, after: nat)
    requires ClockFollows(s, k, gap, marked, after)
    ensures k < |s| && !DigitAt(s, k) && ClockWordAt(s, SkipSpaces(s, k))
  {
    var o := k + gap;
    ClockTail(s, if marked then o + 2 else o + 1, after);
    OneLetter(s, o);
    OneLetter(s, o + 1);
    assert 0 < gap ==> SpaceAt(s, k);
    RunOfSpaces(s, k, gap);
  }

  lemma ClockParts(s: string, o: nat) returns (marked: bool, m: nat, c: nat)
    requires ClockWordAt(s, o)
    ensures LetterAt(s, o, 'o') && (marked ==> LetterAt(s, o + 1, '\'')) && m == if marked then o + 2 else o + 1
    ensures m <= |s| && c == SkipSpaces(s, m) && ClockAt(s, c)
  {
    OneLetter(s, o);
    OneLetter(s, o + 1);
    marked := CharAt(s, o + 1, "'");
    m := if marked then o + 2 else o + 1;
    c := SkipSpaces(s, m);
  }

  lemma ClockAssembled(s: string, k: nat, o: nat, marked: bool, m: nat, c: nat)
    requires k <= o && White(s, k, o - k) && LetterAt(s, o, 'o') && (marked ==> LetterAt(s, o + 1, '\''))
    requires m == (if marked then o + 2 else o + 1) && m <= c && White(s, m, c - m) && ClockAt(s, c)
    ensures ClockFollows(s, k, o - k, marked, c - m)
  {
  }

  lemma ClockFound(s: string, k: nat) returns (gap: nat, marked: bool, after: nat)
    requires k <= |s| && ClockWordAt(s, SkipSpaces(s, k))
    ensures ClockFollows(s, k, gap, marked, after)
  {
    var o, m, c := SkipSpaces(s, k), 0, 0;
    SpacesSkipped(s, k);
    marked, m, c := ClockParts(s, o);
    SpacesSkipped(s, m);
    gap, after := o - k, c - m;
    ClockAssembled(s, k, o, marked, m, c);
  }

  lemma OClockReads(s: string, i: nat, n: nat, gap: nat, marked: bool, after: nat)
    requires OClockMatch(s, i, n, gap, marked, after)
    ensures OClockAt(s, i) == Some(Number(s, i, n))
  {
    ClockReads(s, i + n, gap, marked, after);
    RunOfDigits(s, i, n);
  }

  lemma OClockFound(s: string, i: nat) returns (n: nat, gap: nat, marked: bool, after: nat)
    requires OClockAt(s, i).Some?
    ensures OClockMatch(s, i, n, gap, marked, after) && OClockAt(s, i).value == Number(s, i, n)
  {
    n := DigitRun(s, i);
    RunIsDigits(s, i);
    gap, marked, after := ClockFound(s, i + n);
  }

  lemma OClockAtMeans(s: string, i: nat, hour: nat)
    ensures OClockAt(s, i) == Some(hour) <==> OClockHere(s, i, hour)
  {
    if OClockHere(s, i, hour) {
      var n: nat, gap: nat, marked: bool, after: nat :|
        OClockMatch(s, i, n, gap, marked, after) && hour == Number(s, i, n);
      OClockReads(s, i, n, gap, marked, after);
    }
    if OClockAt(s, i) == Some(hour) {
      var n, gap, marked, after := OClockFound(s, i);
    }
  }

  lemma OClockExact(s: string, hour: nat)
    ensures Search(OClockAt, s, 0) == Some(hour) <==> First(OClockHere, s, hour)
    ensures Search(OClockAt, s, 0).Some? <==> Somewhere(OClockHere, s)
  {
    forall i: nat, z: nat ensures OClockAt(s, i) == Some(z) <==> OClockHere(s, i, z) {
      OClockAtMeans(s, i, z);
    }
    SearchIsFirst(OClockAt, OClockHere, s, hour);
  }

  predicate Preposition(w: string) {
    w == "at" || w == "around" || w == "by" || w == "after" || w == "before"
  }

  /** An hour in figures after a preposition. */
  predicate BareHourMatch(s: string, i: nat, w: string, gap: nat, n: nat) {
    var j := i + |w| + gap;
    && Boundary(s, i) && Preposition(w) && Starts(s, i, w) && 1 <= gap && White(s, i + |w|, gap)
    && 1 <= n <= 2 && Digits(s, j, n) && Boundary(s, j + n)
  }

  ghost predicate BareHourHere(s: string, i: nat, hour: nat) {
    exists w: string, gap: nat, n: nat ::
      BareHourMatch(s, i, w, gap, n) && hour == Number(s, i + |w| + gap, n)
  }

  lemma PrepositionReads(s: string, i: nat, w: string)
    requires Preposition(w) && Starts(s, i, w)
    ensures PrepositionAt(s, i) == |w|
  {
    assert s[i] == s[i..i + |w|][0] && s[i + 1] == s[i..i + |w|][1];
    forall v | Starts(s, i, v) && 2 <= |v| ensures v[0] == s[i] && v[1] == s[i + 1] {
      assert s[i..i + |v|][0] == v[0] && s[i..i + |v|][1] == v[1];
    }
  }

  lemma PrepositionFound(s: string, i: nat) returns (w: string)
    requires 0 < PrepositionAt(s, i)
    ensures Preposition(w) && Starts(s, i, w) && |w| == PrepositionAt(s, i)
  {
    w := if Starts(s, i, "at") then "at" else if Starts(s, i, "around") then "around"
         else if Starts(s, i, "by") then "by" else if Starts(s, i, "after") then "after" else "before";
  }

  lemma BareHourReads(s: string, i: nat, w: string, gap: nat, n: nat)
    requires BareHourMatch(s, i, w, gap, n)
    ensures BareHourAt(s, i) == Some(Number(s, i + |w| + gap, n))
  {
    var j := i + |w| + gap;
    PrepositionReads(s, i, w);
    assert DigitAt(s, j);
    RunOfSpaces(s, i + |w|, gap);
    EdgeEndsDigits(s, j, n);
    RunOfDigits(s, j, n);
  }

  lemma BareHourFound(s: string, i: nat)
    requires BareHourAt(s, i).Some?
    ensures BareHourHere(s, i, BareHourAt(s, i).value)
  {
    var w := PrepositionFound(s, i);
    var j := SkipSpaces(s, i + |w|);
    SpacesSkipped(s, i + |w|);
    RunIsDigits(s, j);
    assert BareHourMatch(s, i, w, j - i - |w|, DigitRun(s, j));
  }

  lemma BareHourAtMeans(s: string, i: nat, hour: nat)
    ensures BareHourAt(s, i) == Some(hour) <==> BareHourHere(s, i, hour)
  {
    if BareHourHere(s, i, hour) {
      var w: string, gap: nat, n: nat :|
        BareHourMatch(s, i, w, gap, n) && hour == Number(s, i + |w| + gap, n);
      BareHourReads(s, i, w, gap, n);
    }
    if BareHourAt(s, i) == Some(hour) {
      BareHourFound(s, i);
    }
  }

  lemma BareHourExact(s: string, hour: nat)
    ensures Search(BareHourAt, s, 0) == Some(hour) <==> First(BareHourHere, s, hour)
    ensures Search(BareHourAt, s, 0).Some? <==> Somewhere(BareHourHere, s)
  {
    forall i: nat, z: nat ensures BareHourAt(s, i) == Some(z) <==> BareHourHere(s, i, z) {
      BareHourAtMeans(s, i, z);
    }
    SearchIsFirst(BareHourAt, BareHourHere, s, hour);
  }
}
