/** What a retrieval score means, and what a query gets: which snippets, in which order, and what
is handed over when nothing scores. */
module RetrievalLaws {
  import opened Wrappers
  import opened Retriever

  // ------------------------------------------------------------------
  // Tokens
  // ------------------------------------------------------------------

  lemma {:induction false} PairsAreNeighbours(words: seq<string>, t: Token)
    ensures t in Pairs(words) <==> exists i :: 0 <= i < |words| - 1 && t == Bigram(words[i], words[i + 1])
    ensures |Pairs(words)| == if words == [] then 0 else |words| - 1
  {
    if |words| >= 2 {
      var rest := words[1..];
      PairsAreNeighbours(rest, t);
      if i :| 0 <= i < |rest| - 1 && t == Bigram(rest[i], rest[i + 1]) {
        assert t == Bigram(words[i + 1], words[i + 1 + 1]);
      }
      if i :| 0 <= i < |words| - 1 && t == Bigram(words[i], words[i + 1]) && i > 0 {
        assert t == Bigram(rest[i - 1], rest[i - 1 + 1]);
      }
      assert t == Bigram(words[0], words[0 + 1]) ==> t in Pairs(words);
    }
  }

  /** A text's tokens are its words and the pairs of words that stand side by side in it. */
  lemma TokensAreWordsAndNeighbours(words: seq<string>, t: Token)
    ensures t in Tokenize(words) <==>
      match t
      case Word(w) => w in words
      case Bigram(a, b) => exists i :: 0 <= i < |words| - 1 && words[i] == a && words[i + 1] == b
    ensures |Tokenize(words)| == if words == [] then 0 else 2 * |words| - 1
  {
    PairsAreNeighbours(words, t);
    var singles := Singles(words);
    if w: string :| t == Word(w) && w in words {
      var i :| 0 <= i < |words| && words[i] == w;
      assert singles[i] == t;
    }
    if t in singles {
      var i :| 0 <= i < |singles| && singles[i] == t;
      assert t == Word(words[i]);
    }
    if t.Bigram? {
      if i :| 0 <= i < |words| - 1 && words[i] == t.a && words[i + 1] == t.b {
        assert t == Bigram(words[i], words[i + 1]);
      }
    }
  }

  /** Title and tags count three times what the content does. */
  lemma FieldsAreWeighted(s: Snippet, t: Token)
    ensures Count(TokensOf(s), t)
         == 3 * Count(Tokenize(s.title), t) + 3 * Count(Tokenize(s.tags), t) + Count(Tokenize(s.content), t)
  {
  }

  // ------------------------------------------------------------------
  // Scores
  // ------------------------------------------------------------------

  lemma Quotient(a: real, b: real) returns (q: real)
    requires 0.0 < b
    ensures q == a / b && q * b == a
  {
    q := a / b;
  }

  lemma Between(a: real, b: real, c: real)
    requires 0.0 < c && a * c < b * c
    ensures a < b
  {
  }

  lemma ScaleKeepsOrder(a: real, b: real, c: real)
    requires a < b && 0.0 < c
    ensures a * c < b * c && c * a < c * b
  {
  }

  /** x / (x + c) rises with x and falls with c. */
  lemma FractionRises(k: real, x: real, y: real, c: real)
    requires 0.0 < k && 0.0 < x < y && 0.0 < c
    ensures x * k / (x + c) < y * k / (y + c)
  {
    var p := Quotient(x * k, x + c);
    var q := Quotient(y * k, y + c);
    assert p < k by {
      ScaleKeepsOrder(0.0, c, k);
      assert k * (x + c) == k * x + k * c;
      Between(p, k, x + c);
    }
    ScaleKeepsOrder(0.0, y - x, k - p);
    assert p * (y + c) == p * (x + c) + p * (y - x);
    assert q * (y + c) - p * (y + c) == (k - p) * (y - x);
    Between(p, q, y + c);
  }

  lemma SmallerShare(a: real, b: real, c: real, p: real, q: real)
    requires 0.0 < a && 0.0 < b < c && p * c == a && q * b == a
    ensures p < q
  {
    Between(0.0, p, c);
    ScaleKeepsOrder(b, c, p);
    Between(p, q, b);
  }

  lemma FractionFalls(a: real, b: real, c: real)
    requires 0.0 < a && 0.0 < b < c
    ensures a / c < a / b
  {
    var p := Quotient(a, c);
    var q := Quotient(a, b);
    SmallerShare(a, b, c, p, q);
  }

  /** One more occurrence counts for more, in a longer document each counts for less. */
  lemma SaturationOrder(tf: nat, more: nat, length: nat, longer: nat, average: real)
    requires 0 < tf < more && length < longer && 1.0 <= average
    ensures Saturation(tf, length, average) < Saturation(more, length, average)
    ensures Saturation(tf, longer, average) < Saturation(tf, length, average)
  {
    RelativePositive(length, average);
    RelativePositive(longer, average);
    FractionRises(K1 + 1.0, tf as real, more as real, K1 * Relative(length, average));
    var p := Quotient(length as real, average);
    var q := Quotient(longer as real, average);
    Between(p, q, average);
    assert Relative(length, average) < Relative(longer, average);
    FractionFalls(tf as real * (K1 + 1.0), tf as real + K1 * Relative(length, average),
                  tf as real + K1 * Relative(longer, average));
  }

  /** In a document of average length a first occurrence counts one, and no number of them counts two
  and a half; twice that length takes a first occurrence down to 2.5 / 3.625. */
  lemma SaturationScale(tf: nat, length: nat, average: real)
    requires 0 < tf && 1.0 <= average == length as real
    ensures Saturation(1, length, average) == 1.0 && Saturation(tf, length, average) < 2.5
    ensures Saturation(1, 2 * length, average) * 3.625 == 2.5
  {
    RelativeScale(length, average);
    var x := tf as real;
    BelowTheCap(x, x * 2.5 / (x + 1.5));
  }

  lemma RelativeScale(length: nat, average: real)
    requires 1.0 <= average == length as real
    ensures Relative(length, average) == 1.0 && Relative(2 * length, average) == 1.75
  {
    var p := Quotient((2 * length) as real, average);
    SameQuotient(p, 2.0, average);
  }

  lemma SameQuotient(p: real, q: real, b: real)
    requires 0.0 < b && p * b == q * b
    ensures p == q
  {
  }

  lemma BelowTheCap(x: real, p: real)
    requires 0.0 < x && p == x * 2.5 / (x + 1.5)
    ensures p < 2.5
  {
    var q := Quotient(x * 2.5, x + 1.5);
    Between(q, 2.5, x + 1.5);
  }

  /** A term counts by how many documents there are to each that has it. */
  lemma RarityIsTheShare(n: nat, df: nat)
    ensures Rarity(n, df) * (df as real + 0.5) == n as real + 1.0
  {
    var q := Quotient(n as real - df as real + 0.5, df as real + 0.5);
  }

  /** The product a term's score is. */
  lemma ProductOrder(low: real, high: real, idf: real, asked: real, weight: real)
    requires low < high && 0.0 < idf && 0.0 < asked && 0.0 < weight
    ensures idf * low * asked * weight < idf * high * asked * weight
  {
    ScaleKeepsOrder(low, high, idf);
    ScaleKeepsOrder(idf * low, idf * high, asked);
    ScaleKeepsOrder(idf * low * asked, idf * high * asked, weight);
  }

  lemma BetterSaturates(a: Tokens, b: Tokens, term: Token, average: real)
    requires 1.0 <= average && 0 < Count(a, term) && Better(a, b, term)
    ensures Saturation(Count(a, term), |a|, average) < Saturation(Count(b, term), |b|, average)
  {
    if |a| == |b| {
      SaturationOrder(Count(a, term), Count(b, term), |a|, |a| + 1, average);
    } else {
      SaturationOrder(Count(a, term), Count(a, term) + 1, |b|, |a|, average);
    }
  }

  lemma WeighedIs(
      ln: real -> real, st: Stats, query: Tokens, term: Token, sat: real, idf: real, asked: real, weight: real)
    requires idf == Idf(ln, st, term) && asked == Count(query, term) as real && weight == TermWeight(term)
    ensures Weighed(ln, st, query, term, sat) == idf * sat * asked * weight
  {
  }

  lemma TermFactors(ln: real -> real, st: Stats, tokens: Tokens, query: Tokens, term: Token)
      returns (sat: real, idf: real, asked: real, weight: real)
    requires 1.0 <= st.average && 0.0 < Idf(ln, st, term) && term in query && 0 < Count(tokens, term)
    ensures sat == Saturation(Count(tokens, term), |tokens|, st.average) && 0.0 < sat
    ensures idf == Idf(ln, st, term) && 0.0 < idf
    ensures asked == Count(query, term) as real && 0.0 < asked
    ensures weight == TermWeight(term) && 0.0 < weight
    ensures TermScore(ln, st, tokens, query, term) == idf * sat * asked * weight
  {
    sat, idf := Saturation(Count(tokens, term), |tokens|, st.average), Idf(ln, st, term);
    asked, weight := Count(query, term) as real, TermWeight(term);
    WeighedIs(ln, st, query, term, sat, idf, asked, weight);
  }

  lemma IdfIsPositive(ln: real -> real, st: Stats, term: Token)
    requires LogLike(ln) && Plausible(st)
    ensures 0.0 < Idf(ln, st, term)
  {
    IdfSign(ln, if st.documents == 0 then 1 else st.documents, DocFreq(st, term));
  }

  /** Weighed is the product of the saturation and a positive factor. */
  lemma WeighedFactor(ln: real -> real, st: Stats, query: Tokens, term: Token, sat: real) returns (factor: real)
    requires 0.0 < Idf(ln, st, term) && term in query
    ensures factor == WeightOf(ln, st, query, term) && 0.0 < factor
    ensures Weighed(ln, st, query, term, sat) == factor * sat
  {
    var idf, asked, weight := Idf(ln, st, term), Count(query, term) as real, TermWeight(term);
    factor := WeightOf(ln, st, query, term);
    PositiveProduct(idf, asked);
    PositiveProduct(idf * asked, weight);
    WeighedIs(ln, st, query, term, sat, idf, asked, weight);
    Regrouped(idf, sat, asked, weight);
  }

  function WeightOf(ln: real -> real, st: Stats, query: Tokens, term: Token): real {
    Idf(ln, st, term) * Count(query, term) as real * TermWeight(term)
  }

  lemma Regrouped(a: real, b: real, c: real, d: real)
    ensures a * b * c * d == (a * c * d) * b
  {
  }

  lemma FactorOrder(factor: real, low: real, high: real, p: real, q: real)
    requires 0.0 < factor && low < high && p == factor * low && q == factor * high
    ensures p < q
  {
    ScaleKeepsOrder(low, high, factor);
  }

  lemma WeighedOrder(ln: real -> real, st: Stats, query: Tokens, term: Token, low: real, high: real)
    requires 0.0 < Idf(ln, st, term) && term in query && low < high
    ensures Weighed(ln, st, query, term, low) < Weighed(ln, st, query, term, high)
  {
    var factor := WeighedFactor(ln, st, query, term, low);
    var same := WeighedFactor(ln, st, query, term, high);
    FactorOrder(factor, low, high, Weighed(ln, st, query, term, low), Weighed(ln, st, query, term, high));
  }

  lemma TermOrder(ln: real -> real, st: Stats, a: Tokens, b: Tokens, query: Tokens, term: Token)
    requires LogLike(ln) && Plausible(st) && term in query && 0 < Count(a, term) && Better(a, b, term)
    ensures TermScore(ln, st, a, query, term) < TermScore(ln, st, b, query, term)
  {
    IdfIsPositive(ln, st, term);
    BetterSaturates(a, b, term, st.average);
    WeighedOrder(ln, st, query, term, Saturation(Count(a, term), |a|, st.average),
                 Saturation(Count(b, term), |b|, st.average));
  }

  /** Document b has every term of the query at least as often as a, in as many tokens; or exactly as
  often, in fewer. */
  predicate AtLeastAsGood(a: Tokens, b: Tokens, term: Token) {
    (|a| == |b| && Count(a, term) <= Count(b, term)) || (|b| < |a| && Count(a, term) == Count(b, term))
  }

  predicate Better(a: Tokens, b: Tokens, term: Token) {
    (|a| == |b| && Count(a, term) < Count(b, term)) || (|b| < |a| && 0 < Count(a, term) == Count(b, term))
  }

  lemma TermIsAtLeast(ln: real -> real, st: Stats, a: Tokens, b: Tokens, query: Tokens, term: Token)
    requires LogLike(ln) && Plausible(st) && term in query && AtLeastAsGood(a, b, term)
    ensures TermScore(ln, st, a, query, term) <= TermScore(ln, st, b, query, term)
    ensures Better(a, b, term) ==> TermScore(ln, st, a, query, term) < TermScore(ln, st, b, query, term)
  {
    if Better(a, b, term) {
      if 0 < Count(a, term) {
        TermOrder(ln, st, a, b, query, term);
      } else {
        TermScoreSign(ln, st, b, query, term);
      }
    }
  }

  lemma {:induction false} ScoreOrderOver(
      ln: real -> real, st: Stats, a: Tokens, b: Tokens, query: Tokens, terms: Tokens)
    requires LogLike(ln) && Plausible(st) && forall t :: t in terms ==> t in query && AtLeastAsGood(a, b, t)
    ensures ScoreOver(ln, st, a, query, terms) <= ScoreOver(ln, st, b, query, terms)
    ensures (exists t :: t in terms && Better(a, b, t)) ==>
      ScoreOver(ln, st, a, query, terms) < ScoreOver(ln, st, b, query, terms)
  {
    if terms != [] {
      var before, last := terms[..|terms| - 1], terms[|terms| - 1];
      ScoreOrderOver(ln, st, a, b, query, before);
      TermIsAtLeast(ln, st, a, b, query, last);
      assert terms == before + [last];
    }
  }

  /** A score rises strictly with how often the query's terms occur, and falls strictly with the
  length of the document. */
  lemma ScoreOrder(ln: real -> real, st: Stats, a: Tokens, b: Tokens, query: Tokens)
    requires LogLike(ln) && Plausible(st) && forall t :: t in query ==> AtLeastAsGood(a, b, t)
    requires exists t :: t in query && Better(a, b, t)
    ensures ScoreOver(ln, st, a, query, Terms(query)) < ScoreOver(ln, st, b, query, Terms(query))
  {
    forall t ensures t in Terms(query) <==> t in query { TermsAreTheQuery(query, t); }
    ScoreOrderOver(ln, st, a, b, query, Terms(query));
  }

  lemma RarerIsHigher(n: nat, rare: nat, common: nat)
    requires rare < common
    ensures Rarity(n, common) < Rarity(n, rare)
  {
    RarityIsTheShare(n, rare);
    RarityIsTheShare(n, common);
    SmallerShare(n as real + 1.0, rare as real + 0.5, common as real + 0.5, Rarity(n, common), Rarity(n, rare));
  }

  /** One factor larger and the others alike make the product larger. */
  lemma OneFactorLarger(sat: real, i: real, j: real, x: real, y: real, v: real, w: real)
    requires 0.0 < sat && 0.0 < i <= j && 0.0 < x <= y && 0.0 < v <= w && (i < j || x < y || v < w)
    requires (i == j && x == y) || (i == j && v == w) || (x == y && v == w)
    ensures i * sat * x * v < j * sat * y * w
  {
    PositiveProduct(i, sat);
    PositiveProduct(i * sat, x);
    if i < j {
      ProductOrder(i, j, sat, x, v);
      assert sat * i * x * v == i * sat * x * v && sat * j * x * v == j * sat * x * v;
    } else if x < y {
      ScaleKeepsOrder(x, y, i * sat);
      ScaleKeepsOrder(i * sat * x, i * sat * y, v);
    } else {
      ScaleKeepsOrder(v, w, i * sat * x);
    }
  }

  /** Of two terms that occur equally often, the rarer one counts for more, the one asked for more
  often does, and a pair of words does against a single one, other things being equal. */
  lemma TermsAreWeighed(ln: real -> real, st: Stats, tokens: Tokens, query: Tokens, low: Token, high: Token)
    requires LogLike(ln) && Plausible(st) && low in query && high in query
    requires 0 < Count(tokens, low) == Count(tokens, high)
    requires
      || (DocFreq(st, high) < DocFreq(st, low) && Count(query, low) == Count(query, high) && low.Word? == high.Word?)
      || (DocFreq(st, high) == DocFreq(st, low) && Count(query, low) < Count(query, high) && low.Word? == high.Word?)
      || (DocFreq(st, high) == DocFreq(st, low) && Count(query, low) == Count(query, high) && low.Word? && high.Bigram?)
    ensures TermScore(ln, st, tokens, query, low) < TermScore(ln, st, tokens, query, high)
  {
    RarerHasHigherIdf(ln, st, low, high);
    IdfIsPositive(ln, st, low);
    IdfIsPositive(ln, st, high);
    var sat, i, x, v := TermFactors(ln, st, tokens, query, low);
    var _, j, y, w := TermFactors(ln, st, tokens, query, high);
    OneFactorLarger(sat, i, j, x, y, v, w);
  }

  lemma RarerHasHigherIdf(ln: real -> real, st: Stats, low: Token, high: Token)
    requires LogLike(ln) && DocFreq(st, high) <= DocFreq(st, low)
    ensures if DocFreq(st, high) < DocFreq(st, low) then Idf(ln, st, low) < Idf(ln, st, high)
            else Idf(ln, st, low) == Idf(ln, st, high)
  {
    var n := if st.documents == 0 then 1 else st.documents;
    if DocFreq(st, high) < DocFreq(st, low) {
      RarerIsHigher(n, DocFreq(st, high), DocFreq(st, low));
      RarityAboveOne(n, DocFreq(st, low));
    }
  }

  // ------------------------------------------------------------------
  // Courses
  // ------------------------------------------------------------------

  /** The snippet is about this course, about none, or about another. */
  predicate AboutCourse(s: Snippet, course: string) {
    s.course == Some(course)
  }

  predicate AboutAnother(s: Snippet, course: string) {
    s.course.Some? && s.course.value != course
  }

  predicate General(s: Snippet) {
    s.course.None?
  }

  lemma WeightKeepsOrder(a: real, b: real, weight: real)
    requires 0.0 < weight
    ensures a < b <==> a * weight < b * weight
  {
    if a < b {
      ScaleKeepsOrder(a, b, weight);
    } else if b < a {
      ScaleKeepsOrder(b, a, weight);
    }
  }

  lemma ScopedTimesWeight(x: real, s: Snippet, course: Option<string>, p: real)
    requires p == Scoped(x, s.(weight := 1.0), course)
    ensures Scoped(x, s, course) == p * s.weight
  {
  }

  /** At equal weight two snippets compare as their scores do before it. */
  lemma ScopesCompare(x: real, a: Snippet, y: real, b: Snippet, course: Option<string>, p: real, q: real)
    requires 0.0 < a.weight == b.weight
    requires p == Scoped(x, a.(weight := 1.0), course) && q == Scoped(y, b.(weight := 1.0), course)
    ensures Scoped(x, a, course) < Scoped(y, b, course) <==> p < q
  {
    ScopedTimesWeight(x, a, course, p);
    ScopedTimesWeight(y, b, course, q);
    WeightKeepsOrder(p, q, a.weight);
  }

  /** With a course asked about: its snippet scores above a general one of the same text score and
  weight, and that above another course's. How much better a text has to score to make up for that
  is known exactly. */
  lemma AskedCourseIsPreferred(course: string, asked: Snippet, general: Snippet, other: Snippet, x: real, y: real)
    requires course != "" && AboutCourse(asked, course) && General(general) && AboutAnother(other, course)
    requires 0.0 < asked.weight == general.weight == other.weight
    ensures 0.0 <= x ==> Scoped(x, general, Some(course)) < Scoped(x, asked, Some(course))
    ensures 0.0 < x ==> Scoped(x, other, Some(course)) < Scoped(x, general, Some(course))
    ensures Scoped(y, asked, Some(course)) < Scoped(x, general, Some(course)) <==> y * 1.8 + 0.5 < x
    ensures Scoped(y, general, Some(course)) < Scoped(x, other, Some(course)) <==> y < x * 0.35
  {
    ScopesCompare(x, general, x, asked, Some(course), x, x * 1.8 + 0.5);
    ScopesCompare(x, other, x, general, Some(course), x * 0.35, x);
    ScopesCompare(y, asked, x, general, Some(course), y * 1.8 + 0.5, x);
    ScopesCompare(y, general, x, other, Some(course), y, x * 0.35);
  }

  /** With no course asked about, a general snippet scores above any course's. */
  lemma GeneralIsPreferred(course: Option<string>, general: Snippet, particular: Snippet, x: real, y: real)
    requires course.None? || course == Some("")
    requires General(general) && !General(particular) && 0.0 < general.weight == particular.weight
    ensures 0.0 < x ==> Scoped(x, particular, course) < Scoped(x, general, course)
    ensures Scoped(y, general, course) < Scoped(x, particular, course) <==> y < x * 0.55
  {
    ScopesCompare(x, particular, x, general, course, x * 0.55, x);
    ScopesCompare(y, general, x, particular, course, y, x * 0.55);
  }

  /** Of two snippets alike, the heavier scores higher. */
  lemma HeavierIsPreferred(s: Snippet, heavier: Snippet, course: Option<string>, x: real)
    requires s.course == heavier.course && s.weight < heavier.weight && 0.0 < x
    ensures Scoped(x, s, course) < Scoped(x, heavier, course)
  {
    var factor := Scoped(x, s.(weight := 1.0), course);
    assert 0.0 < factor;
    ScaleKeepsOrder(s.weight, heavier.weight, factor);
  }

  // ------------------------------------------------------------------
  // Hits
  // ------------------------------------------------------------------

  /** Who may be given a snippet: one side never gets what is only for the other. */
  predicate MeantFor(s: Snippet, audience: Audience) {
    match s.audience
    case Everyone => true
    case PreSalesOnly => !audience.PostSalesOnly?
    case PostSalesOnly => !audience.PreSalesOnly?
  }

  lemma HeardIsMeantFor(s: Snippet, audience: Audience)
    ensures Heard(s, audience) <==> MeantFor(s, audience)
  {
  }

  predicate IsHit(hits: seq<Hit>, i: nat) {
    exists k :: 0 <= k < |hits| && hits[k].at == i
  }

  /** A word or a pair of neighbouring words is in both. */
  predicate Shares(s: Snippet, words: seq<string>) {
    exists t :: t in Tokenize(words) && t in TokensOf(s)
  }

  predicate AskedAbout(s: Snippet, course: Option<string>) {
    course.Some? && course.value != "" && s.course == course
  }

  lemma ScopedIsPositive(x: real, s: Snippet, course: Option<string>)
    requires 0.0 <= x
    ensures 0.0 < Scoped(x, s, course) <==> 0.0 < s.weight && (0.0 < x || AskedAbout(s, course))
  {
    var scoped := Scoped(x, s.(weight := 1.0), course);
    assert 0.0 < scoped <==> 0.0 < x || AskedAbout(s, course);
    assert Scoped(x, s, course) == scoped * s.weight;
    if 0.0 < s.weight {
      PositiveProduct(scoped, s.weight);
    } else {
      assert scoped * s.weight <= 0.0;
    }
  }

  lemma TextScore(r: KeywordRetriever, i: nat, words: seq<string>) returns (x: real)
    requires r.Valid() && UniqueIds(r.snippets) && LogLike(r.ln) && i < |r.snippets|
    ensures x == ScoreOver(r.ln, r.Counts(), TokensOf(r.snippets[i]), Tokenize(words), Terms(Tokenize(words)))
    ensures 0.0 <= x && (0.0 < x <==> Shares(r.snippets[i], words))
    ensures forall course: Option<string> ::
      r.FinalScore(i, Tokenize(words), course) == Scoped(x, r.snippets[i], course)
  {
    r.UniqueIdsMakeCountsPlausible();
    IndexIsFaithful(r.snippets);
    ScoreIsPositiveIffShared(r.ln, r.Counts(), TokensOf(r.snippets[i]), Tokenize(words));
    x := ScoreOver(r.ln, r.Counts(), TokensOf(r.snippets[i]), Tokenize(words), Terms(Tokenize(words)));
  }

  lemma HitIsScored(r: KeywordRetriever, i: nat, query: Tokens, course: Option<string>, audience: Audience)
    requires r.Valid() && i < |r.snippets|
    ensures IsHit(r.HitsAmong(|r.snippets|, query, course, audience), i)
       <==> MeantFor(r.snippets[i], audience) && 0.0 < r.FinalScore(i, query, course)
  {
    var hits := r.HitsAmong(|r.snippets|, query, course, audience);
    r.HitsArePositive(|r.snippets|, query, course, audience);
    if MeantFor(r.snippets[i], audience) && 0.0 < r.FinalScore(i, query, course) {
      r.PositiveIsHit(|r.snippets|, query, course, audience, i);
      var k :| 0 <= k < |hits| && hits[k] == Hit(r.FinalScore(i, query, course), i);
    }
    if k :| 0 <= k < |hits| && hits[k].at == i {
      assert hits[k] in hits;
    }
  }

  /** A snippet is a hit exactly when it may be given to this audience, has a positive weight, and is
  about the course asked about, whatever its words, or shares a term with the query. */
  lemma HitExactlyWhen(r: KeywordRetriever, i: nat, words: seq<string>, course: Option<string>, audience: Audience)
    requires r.Valid() && UniqueIds(r.snippets) && LogLike(r.ln) && i < |r.snippets|
    ensures var s := r.snippets[i];
      IsHit(r.HitsAmong(|r.snippets|, Tokenize(words), course, audience), i)
      <==> MeantFor(s, audience) && 0.0 < s.weight && (AskedAbout(s, course) || Shares(s, words))
  {
    var x := TextScore(r, i, words);
    ScopedIsPositive(x, r.snippets[i], course);
    HitIsScored(r, i, Tokenize(words), course, audience);
  }

  // ------------------------------------------------------------------
  // The order of the hits
  // ------------------------------------------------------------------

  predicate InOrder(hits: seq<Hit>, n: nat) {
    && (forall i :: 0 <= i < |hits| ==> hits[i].at < n)
    && (forall i, j :: 0 <= i < j < |hits| ==> hits[i].at < hits[j].at)
  }

  lemma AppendedInOrder(hits: seq<Hit>, h: Hit)
    requires InOrder(hits, h.at)
    ensures InOrder(hits + [h], h.at + 1)
  {
  }

  lemma {:induction false} HitsAreInOrder(
      r: KeywordRetriever, n: nat, query: Tokens, course: Option<string>, audience: Audience)
    requires n <= |r.snippets| && 1.0 <= r.average
    ensures InOrder(r.HitsAmong(n, query, course, audience), n)
  {
    if n != 0 {
      HitsAreInOrder(r, n - 1, query, course, audience);
      AppendedInOrder(r.HitsAmong(n - 1, query, course, audience), Hit(r.FinalScore(n - 1, query, course), n - 1));
    }
  }

  /** The better score stands first; of equal scores, the one that stands first in the knowledge base. */
  predicate Precedes(a: Hit, b: Hit) {
    b.score < a.score || (a.score == b.score && a.at < b.at)
  }

  predicate BestFirst(hits: seq<Hit>) {
    forall i, j :: 0 <= i < j < |hits| ==> Precedes(hits[i], hits[j])
  }

  lemma {:induction false} InsertedHas(hits: seq<Hit>, h: Hit, k: nat)
    requires k < |Inserted(hits, h)|
    ensures Inserted(hits, h)[k] == h || Inserted(hits, h)[k] in hits
  {
    if hits != [] && h.score <= hits[0].score && 0 < k {
      InsertedHas(hits[1..], h, k - 1);
    }
  }

  lemma {:induction false} InsertedStandsRight(hits: seq<Hit>, h: Hit)
    requires BestFirst(hits) && forall i :: 0 <= i < |hits| ==> hits[i].at < h.at
    ensures BestFirst(Inserted(hits, h))
  {
    if hits != [] && h.score <= hits[0].score {
      InsertedStandsRight(hits[1..], h);
      var rest := Inserted(hits[1..], h);
      forall k | 0 <= k < |rest| ensures Precedes(hits[0], rest[k]) {
        InsertedHas(hits[1..], h, k);
      }
    }
  }

  lemma {:induction false} RankedIsBestFirst(hits: seq<Hit>, n: nat)
    requires InOrder(hits, n)
    ensures BestFirst(Ranked(hits))
  {
    if hits != [] {
      var before, last := hits[..|hits| - 1], hits[|hits| - 1];
      RankedIsBestFirst(before, n);
      RankedIsSorted(before);
      forall i | 0 <= i < |Ranked(before)| ensures Ranked(before)[i].at < last.at {
        assert Ranked(before)[i] in multiset(before);
      }
      InsertedStandsRight(Ranked(before), last);
    }
  }

  /** The hits of a query, best first. */
  function Answers(r: KeywordRetriever, words: seq<string>, course: Option<string>, audience: Audience): seq<Hit>
    requires 1.0 <= r.average
    reads r
  {
    Ranked(r.HitsAmong(|r.snippets|, Tokenize(words), course, audience))
  }

  /** The hits stand best first, ties as in the knowledge base, and each once. */
  lemma AnswersAreBestFirst(r: KeywordRetriever, words: seq<string>, course: Option<string>, audience: Audience)
    requires r.Valid()
    ensures BestFirst(Answers(r, words, course, audience))
    ensures multiset(Answers(r, words, course, audience))
         == multiset(r.HitsAmong(|r.snippets|, Tokenize(words), course, audience))
  {
    var hits := r.HitsAmong(|r.snippets|, Tokenize(words), course, audience);
    HitsAreInOrder(r, |r.snippets|, Tokenize(words), course, audience);
    RankedIsBestFirst(hits, |r.snippets|);
    RankedIsSorted(hits);
  }

  lemma AnswerIsHit(
      r: KeywordRetriever, words: seq<string>, course: Option<string>, audience: Audience, p: nat)
    requires r.Valid() && p < |Answers(r, words, course, audience)|
    ensures var h := Answers(r, words, course, audience)[p];
      h.at < |r.snippets| && 0.0 < h.score == r.FinalScore(h.at, Tokenize(words), course)
      && MeantFor(r.snippets[h.at], audience)
  {
    AnswersAreBestFirst(r, words, course, audience);
    r.HitsArePositive(|r.snippets|, Tokenize(words), course, audience);
    assert Answers(r, words, course, audience)[p] in multiset(Answers(r, words, course, audience));
  }

  /** The first is of the course asked about and the second is not; or the first is general and the
  second is about a course nobody asked about. */
  predicate Closer(a: Snippet, b: Snippet, course: Option<string>) {
    !AskedAbout(b, course) && (AskedAbout(a, course) || (General(a) && !General(b)))
  }

  lemma CloserScoresHigher(x: real, a: Snippet, b: Snippet, course: Option<string>)
    requires 0.0 < a.weight == b.weight && Closer(a, b, course) && 0.0 <= x && (0.0 < x || AskedAbout(a, course))
    ensures Scoped(x, b, course) < Scoped(x, a, course)
  {
    ScopesCompare(x, b, x, a, course, Scoped(x, b.(weight := 1.0), course), Scoped(x, a.(weight := 1.0), course));
  }

  /** Of two hits with the same text and weight, the closer to the course asked about stands first. */
  lemma CloserStandsFirst(
      r: KeywordRetriever, words: seq<string>, course: Option<string>, audience: Audience, p: nat, q: nat)
    requires r.Valid() && UniqueIds(r.snippets) && LogLike(r.ln)
    requires var answers := Answers(r, words, course, audience);
      p < |answers| && q < |answers| && answers[p].at < |r.snippets| && answers[q].at < |r.snippets| &&
      var a, b := r.snippets[answers[p].at], r.snippets[answers[q].at];
      a.title == b.title && a.tags == b.tags && a.content == b.content && a.weight == b.weight && Closer(a, b, course)
    ensures p < q
  {
    var answers := Answers(r, words, course, audience);
    var i, j := answers[p].at, answers[q].at;
    AnswerIsHit(r, words, course, audience, p);
    AnswerIsHit(r, words, course, audience, q);
    var x := TextScore(r, i, words);
    var y := TextScore(r, j, words);
    assert x == y;
    ScopedIsPositive(x, r.snippets[i], course);
    ScopedIsPositive(y, r.snippets[j], course);
    CloserScoresHigher(x, r.snippets[i], r.snippets[j], course);
    AnswersAreBestFirst(r, words, course, audience);
    assert q < p ==> Precedes(answers[q], answers[p]);
  }

  // ------------------------------------------------------------------
  // What a query gets
  // ------------------------------------------------------------------

  function TextSize(snippets: seq<Snippet>, picked: seq<nat>): nat {
    if picked == [] then 0
    else
      var last := picked[|picked| - 1];
      TextSize(snippets, picked[..|picked| - 1]) + if last < |snippets| then snippets[last].size else 0
  }

  lemma {:induction false} CharactersAreTheText(r: KeywordRetriever, hits: seq<Hit>)
    ensures Characters(hits, r.Size) == TextSize(r.snippets, r.Places(hits))
  {
    if hits != [] {
      CharactersAreTheText(r, hits[..|hits| - 1]);
      assert r.Places(hits)[..|hits| - 1] == r.Places(hits[..|hits| - 1]);
    }
  }

  /** A limit given and not zero counts, else the retriever's own. */
  function Limit(given: Option<nat>, own: nat): nat {
    match given
    case Some(n) => if n == 0 then own else n
    case None => own
  }

  /** The best snippets, all of them with at least a quarter of the best score, no more than asked for,
  in no more characters unless it is one snippet; and no fewer than that allows. */
  predicate WellPicked(snippets: seq<Snippet>, ranked: seq<Hit>, picked: seq<nat>, count: nat, budget: nat)
    requires ranked != []
  {
    && |picked| <= |ranked| && |picked| <= count && (0 < count ==> picked != [])
    && (forall k :: 0 <= k < |picked| ==> picked[k] == ranked[k].at && ranked[0].score <= 4.0 * ranked[k].score)
    && (TextSize(snippets, picked) <= budget || |picked| == 1)
    && (|picked| == |ranked| || |picked| == count || 4.0 * ranked[|picked|].score < ranked[0].score
        || budget < TextSize(snippets, picked + [ranked[|picked|].at]))
  }

  lemma TakenIsWellPicked(r: KeywordRetriever, ranked: seq<Hit>, l: Limits, n: nat)
    requires ranked != [] && l.cutoff == ranked[0].score * 0.25
    requires n <= |ranked| && WellTaken(ranked, r.Size, l, n) && (0 < l.count ==> 0 < n)
    ensures WellPicked(r.snippets, ranked, r.Places(ranked[..n]), l.count, l.budget)
  {
    CharactersAreTheText(r, ranked[..n]);
    if n < |ranked| {
      CharactersAreTheText(r, ranked[..n + 1]);
      assert r.Places(ranked[..n + 1]) == r.Places(ranked[..n]) + [ranked[n].at];
    }
  }

  lemma AnswersHaveHits(r: KeywordRetriever, words: seq<string>, course: Option<string>, audience: Audience)
    requires 1.0 <= r.average && Answers(r, words, course, audience) != []
    ensures r.HitsAmong(|r.snippets|, Tokenize(words), course, audience) != []
  {
  }

  /** When anything scores the picks are well chosen, within the limits given or else the retriever's own. */
  lemma BestArePicked(
      r: KeywordRetriever, words: seq<string>, course: Option<string>, audience: Audience,
      limit: Option<nat>, maxChars: Option<nat>)
    requires r.Valid() && Answers(r, words, course, audience) != []
    ensures var ranked := Answers(r, words, course, audience);
      WellPicked(r.snippets, ranked, r.Retrieved(ranked, course, limit, maxChars),
                 Limit(limit, r.defaultLimit), Limit(maxChars, r.defaultMaxChars))
  {
    var ranked := Answers(r, words, course, audience);
    AnswersHaveHits(r, words, course, audience);
    r.RetrievalIsWellChosen(words, course, audience, limit, maxChars);
    var l := r.LimitsFor(ranked[0].score, limit, maxChars);
    TakenIsWellPicked(r, ranked, l, Taken(ranked, r.Size, l, 0, 0));
  }

  /** The snippet of this name, as the picks: the last one in the knowledge base, or none. */
  predicate Names(snippets: seq<Snippet>, picks: seq<nat>, id: string) {
    if picks == [] then forall i :: 0 <= i < |snippets| ==> snippets[i].id != id
    else
      && |picks| == 1 && picks[0] < |snippets| && snippets[picks[0]].id == id
      && forall i :: picks[0] < i < |snippets| ==> snippets[i].id != id
  }

  lemma {:induction false} FindIsTheLast(r: KeywordRetriever, id: string, n: nat) returns (picks: seq<nat>)
    requires n <= |r.snippets|
    ensures picks == if r.Find(id, n).Some? then [r.Find(id, n).value] else []
    ensures Names(r.snippets[..n], picks, id)
  {
    picks := if r.Find(id, n).Some? then [r.Find(id, n).value] else [];
    if n != 0 && r.snippets[n - 1].id != id {
      var before := FindIsTheLast(r, id, n - 1);
    }
  }

  lemma NamesDiffer(course: string)
    ensures "company:about" != "company:contact"
    ensures "course:" + course + ":overview" != "company:about"
    ensures "course:" + course + ":overview" != "company:contact"
  {
    assert "company:about"[8] != "company:contact"[8];
    assert ("course:" + course + ":overview")[2] == 'u';
    assert "company:about"[2] == 'm' && "company:contact"[2] == 'm';
  }

  lemma OtherNamesAreAdded(r: KeywordRetriever, picks: seq<nat>, id: string) returns (more: seq<nat>)
    requires forall k :: 0 <= k < |picks| ==> picks[k] < |r.snippets| && r.snippets[picks[k]].id != id
    ensures Names(r.snippets, more, id)
    ensures r.WithPick(picks, id) == picks + more
  {
    assert r.snippets[..|r.snippets|] == r.snippets;
    more := FindIsTheLast(r, id, |r.snippets|);
  }

  predicate NotTheBasics(snippets: seq<Snippet>, picks: seq<nat>) {
    forall k :: 0 <= k < |picks| ==>
      picks[k] < |snippets| && snippets[picks[k]].id != "company:about" && snippets[picks[k]].id != "company:contact"
  }

  lemma BasicsAreAdded(r: KeywordRetriever, overview: seq<nat>) returns (about: seq<nat>, contact: seq<nat>)
    requires NotTheBasics(r.snippets, overview)
    ensures Names(r.snippets, about, "company:about") && Names(r.snippets, contact, "company:contact")
    ensures r.WithPick(r.WithPick(overview, "company:about"), "company:contact") == overview + about + contact
  {
    NamesDiffer("");
    about := OtherNamesAreAdded(r, overview, "company:about");
    contact := OtherNamesAreAdded(r, overview + about, "company:contact");
  }

  lemma OverviewIsAdded(r: KeywordRetriever, course: string) returns (overview: seq<nat>)
    ensures Names(r.snippets, overview, "course:" + course + ":overview")
    ensures r.WithPick([], "course:" + course + ":overview") == overview
    ensures NotTheBasics(r.snippets, overview)
  {
    NamesDiffer(course);
    overview := OtherNamesAreAdded(r, [], "course:" + course + ":overview");
    assert [] + overview == overview;
  }

  /** When nothing scores: the overview of the course asked about, then what there is to say about the
  company and how to reach it, as far as there are such snippets and the limit goes. */
  lemma FallbackHolds(r: KeywordRetriever, course: Option<string>, limit: Option<nat>, maxChars: Option<nat>)
      returns (overview: seq<nat>, about: seq<nat>, contact: seq<nat>)
    ensures course.Some? && course.value != "" ==> Names(r.snippets, overview, "course:" + course.value + ":overview")
    ensures course.None? || course.value == "" ==> overview == []
    ensures Names(r.snippets, about, "company:about") && Names(r.snippets, contact, "company:contact")
    ensures var found, count := overview + about + contact, Limit(limit, r.defaultLimit);
      r.Retrieved([], course, limit, maxChars) == if |found| <= count then found else found[..count]
  {
    overview := [];
    if course.Some? && course.value != "" {
      overview := OverviewIsAdded(r, course.value);
    }
    about, contact := BasicsAreAdded(r, overview);
  }

  predicate AllMeantFor(snippets: seq<Snippet>, picked: seq<nat>, audience: Audience) {
    forall k :: 0 <= k < |picked| ==> picked[k] < |snippets| && MeantFor(snippets[picked[k]], audience)
  }

  /** What is retrieved is meant for the audience exactly when something scores or the fallback
  happens to be: the fallback does not ask whom it is for. */
  lemma AudienceIsKeptExactlyWhen(
      r: KeywordRetriever, words: seq<string>, course: Option<string>, audience: Audience,
      limit: Option<nat>, maxChars: Option<nat>)
    requires r.Valid()
    ensures var ranked := Answers(r, words, course, audience);
      AllMeantFor(r.snippets, r.Retrieved(ranked, course, limit, maxChars), audience)
      <==> ranked != [] || AllMeantFor(r.snippets, r.Retrieved([], course, limit, maxChars), audience)
  {
    var ranked := Answers(r, words, course, audience);
    if ranked != [] {
      BestArePicked(r, words, course, audience, limit, maxChars);
      var picked := r.Retrieved(ranked, course, limit, maxChars);
      forall k | 0 <= k < |picked| ensures picked[k] < |r.snippets| && MeantFor(r.snippets[picked[k]], audience) {
        AnswerIsHit(r, words, course, audience, k);
      }
    }
  }

  /** Somebody who has not enrolled asks nothing that scores, and is handed a text kept for students. */
  lemma FallbackCrossesSides(r: KeywordRetriever, text: seq<string>)
    requires r.Valid() && 0 < r.defaultLimit
    requires r.snippets == [Snippet("company:about", [], [], text, None, PostSalesOnly, 1.0, 0)]
    ensures r.Retrieved(Answers(r, [], None, PreSalesOnly), None, None, None) == [0]
    ensures !MeantFor(r.snippets[0], PreSalesOnly)
  {
    var query := Tokenize([]);
    assert r.HitsAmong(1, query, None, PreSalesOnly) == r.HitsAmong(0, query, None, PreSalesOnly);
    var overview, about, contact := FallbackHolds(r, None, None, None);
    assert r.snippets[0].id == "company:about";
    assert contact == [] by {
      assert "company:about"[8] != "company:contact"[8];
    }
  }
}
