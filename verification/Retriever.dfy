/** Keyword retrieval: a BM25 index with aggregate counts, and the selection of snippets under
a score cutoff, a count limit and a character budget. Scores are exact reals. */
module Retriever {
  import opened Wrappers

  /** A single word, or two adjacent words: a bigram is worth more than either word alone. */
  datatype Token = Word(w: string) | Bigram(a: string, b: string)

  type Tokens = seq<Token>

  datatype Audience = Everyone | PreSalesOnly | PostSalesOnly

  datatype Snippet = Snippet(
    id: string, title: seq<string>, tags: seq<string>, content: seq<string>,
    course: Option<string>, audience: Audience, weight: real, size: nat)

  function Pairs(words: seq<string>): Tokens {
    if |words| < 2 then [] else [Bigram(words[0], words[1])] + Pairs(words[1..])
  }

  function Singles(words: seq<string>): Tokens {
    seq(|words|, i requires 0 <= i < |words| => Word(words[i]))
  }

  /** The words of a text, and each pair of neighbours. */
  function Tokenize(words: seq<string>): Tokens {
    Singles(words) + Pairs(words)
  }

  /** Title and tags count three times. */
  function TokensOf(s: Snippet): Tokens {
    var title, tags := Tokenize(s.title), Tokenize(s.tags);
    title + title + title + tags + tags + tags + Tokenize(s.content)
  }

  function Count(tokens: Tokens, term: Token): nat {
    multiset(tokens)[term]
  }

  // ------------------------------------------------------------------
  // The index
  // ------------------------------------------------------------------

  /** How many of these snippets contain the term. */
  function Containing(snippets: seq<Snippet>, term: Token): nat {
    if snippets == [] then 0
    else
      var last := |snippets| - 1;
      Containing(snippets[..last], term) + if term in TokensOf(snippets[last]) then 1 else 0
  }

  /** Some snippet contains the term. */
  predicate Contained(snippets: seq<Snippet>, term: Token) {
    exists i :: 0 <= i < |snippets| && term in TokensOf(snippets[i])
  }

  lemma ContainedOneMore(snippets: seq<Snippet>, s: Snippet, term: Token)
    ensures Contained(snippets + [s], term) <==> Contained(snippets, term) || term in TokensOf(s)
  {
    var more := snippets + [s];
    if Contained(snippets, term) {
      var i :| 0 <= i < |snippets| && term in TokensOf(snippets[i]);
      assert more[i] == snippets[i];
    }
    if term in TokensOf(s) {
      assert more[|snippets|] == s;
    }
  }

  lemma {:induction false} ContainingAtMost(snippets: seq<Snippet>, term: Token)
    ensures Containing(snippets, term) <= |snippets|
    ensures 0 < Containing(snippets, term) <==> Contained(snippets, term)
  {
    if snippets != [] {
      var last := |snippets| - 1;
      ContainingAtMost(snippets[..last], term);
      ContainedOneMore(snippets[..last], snippets[last], term);
      assert snippets[..last] + [snippets[last]] == snippets;
    }
  }

  predicate UniqueIds(snippets: seq<Snippet>) {
    forall i, j :: 0 <= i < j < |snippets| ==> snippets[i].id != snippets[j].id
  }

  // ------------------------------------------------------------------
  // Scores
  // ------------------------------------------------------------------

  /** What is used of the logarithm: it is zero at one and grows strictly. */
  ghost predicate LogLike(ln: real -> real) {
    ln(1.0) == 0.0 && forall x: real, y: real :: 0.0 < x < y ==> ln(x) < ln(y)
  }

  /** The argument of the logarithm: 1 + (n - df + 0.5) / (df + 0.5). */
  function Rarity(n: nat, df: nat): real {
    1.0 + (n as real - df as real + 0.5) / (df as real + 0.5)
  }

  lemma RarityAboveOne(n: nat, df: nat)
    ensures 0.0 < Rarity(n, df)
    ensures df <= n ==> 1.0 < Rarity(n, df)
    ensures n < df ==> Rarity(n, df) < 1.0
  {
    var d := df as real + 0.5;
    var x := n as real - df as real + 0.5;
    var q := x / d;
    assert q * d == x;
    assert (q + 1.0) * d == n as real + 1.0;
  }

  /** The inverse document frequency is never negative exactly when no term is counted in more
  documents than there are. */
  lemma IdfSign(ln: real -> real, n: nat, df: nat)
    requires LogLike(ln)
    ensures 0.0 < ln(Rarity(n, df)) <==> df <= n
    ensures ln(Rarity(n, df)) < 0.0 <==> n < df
  {
    RarityAboveOne(n, df);
  }

  const K1 := 1.5
  const B := 0.75

  /** How long a document is for its kind: one for the average length. */
  function Relative(length: nat, average: real): real
    requires 1.0 <= average
  {
    1.0 - B + B * (length as real / average)
  }

  lemma RelativePositive(length: nat, average: real)
    requires 1.0 <= average
    ensures 0.25 <= Relative(length, average)
  {
    var q := length as real / average;
    assert q * average == length as real;
  }

  /** The weight of a term that occurs `tf` times, saturating and normalised by length. */
  function Saturation(tf: nat, length: nat, average: real): (r: real)
    requires 1.0 <= average && 0 < tf
    ensures 0.0 < r
  {
    RelativePositive(length, average);
    tf as real * (K1 + 1.0) / (tf as real + K1 * Relative(length, average))
  }

  function TermWeight(term: Token): real {
    if term.Bigram? then 1.6 else 1.0
  }

  /** The terms of a query, each once, in order of first occurrence. */
  function Terms(query: Tokens): Tokens {
    if query == [] then []
    else
      var before := Terms(query[..|query| - 1]);
      if query[|query| - 1] in before then before else before + [query[|query| - 1]]
  }

  lemma {:induction false} TermsAreTheQuery(query: Tokens, term: Token)
    ensures term in Terms(query) <==> term in query
  {
    if query != [] {
      TermsAreTheQuery(query[..|query| - 1], term);
      TermsAreTheQuery(query[..|query| - 1], query[|query| - 1]);
      assert query == query[..|query| - 1] + [query[|query| - 1]];
    }
  }

  /** The aggregate counts a score is computed from. */
  datatype Stats = Stats(documents: nat, docFreq: map<Token, nat>, average: real)

  function DocFreq(st: Stats, term: Token): nat {
    if term in st.docFreq then st.docFreq[term] else 0
  }

  function Idf(ln: real -> real, st: Stats, term: Token): real {
    ln(Rarity(if st.documents == 0 then 1 else st.documents, DocFreq(st, term)))
  }

  ghost predicate NeverNegative(ln: real -> real, st: Stats) {
    forall term :: 0.0 <= Idf(ln, st, term)
  }

  ghost predicate WithinCount(snippets: seq<Snippet>, n: nat) {
    forall term :: Containing(snippets, term) <= n
  }

  /** What a term counts for, given how saturated the document is with it. */
  function Weighed(ln: real -> real, st: Stats, query: Tokens, term: Token, saturation: real): real {
    Idf(ln, st, term) * saturation * Count(query, term) as real * TermWeight(term)
  }

  function TermScore(ln: real -> real, st: Stats, tokens: Tokens, query: Tokens, term: Token): real
    requires 1.0 <= st.average
  {
    var tf := Count(tokens, term);
    if tf == 0 then 0.0 else Weighed(ln, st, query, term, Saturation(tf, |tokens|, st.average))
  }

  function ScoreOver(ln: real -> real, st: Stats, tokens: Tokens, query: Tokens, terms: Tokens): real
    requires 1.0 <= st.average
  {
    if terms == [] then 0.0
    else ScoreOver(ln, st, tokens, query, terms[..|terms| - 1]) + TermScore(ln, st, tokens, query, terms[|terms| - 1])
  }

  lemma PositiveProduct(a: real, b: real)
    requires 0.0 < b
    ensures 0.0 < a ==> 0.0 < a * b
    ensures a == 0.0 ==> a * b == 0.0
    ensures a < 0.0 ==> a * b < 0.0
  {
  }

  /** No term is counted in more documents than there are. */
  ghost predicate Plausible(st: Stats) {
    1.0 <= st.average && forall term :: DocFreq(st, term) <= if st.documents == 0 then 1 else st.documents
  }

  lemma TermScoreSign(ln: real -> real, st: Stats, tokens: Tokens, query: Tokens, term: Token)
    requires LogLike(ln) && Plausible(st) && term in query
    ensures if term in tokens then 0.0 < TermScore(ln, st, tokens, query, term)
            else TermScore(ln, st, tokens, query, term) == 0.0
  {
    var tf := Count(tokens, term);
    if tf != 0 {
      IdfSign(ln, if st.documents == 0 then 1 else st.documents, DocFreq(st, term));
      var idf, norm, q := Idf(ln, st, term), Saturation(tf, |tokens|, st.average), Count(query, term) as real;
      PositiveProduct(idf, norm);
      PositiveProduct(idf * norm, q);
      PositiveProduct(idf * norm * q, TermWeight(term));
    }
  }

  lemma {:induction false} ScoreSign(ln: real -> real, st: Stats, tokens: Tokens, query: Tokens, terms: Tokens)
    requires LogLike(ln) && Plausible(st) && forall t :: t in terms ==> t in query
    ensures 0.0 <= ScoreOver(ln, st, tokens, query, terms)
    ensures 0.0 < ScoreOver(ln, st, tokens, query, terms) <==> exists t :: t in terms && t in tokens
  {
    if terms != [] {
      var before, last := terms[..|terms| - 1], terms[|terms| - 1];
      ScoreSign(ln, st, tokens, query, before);
      TermScoreSign(ln, st, tokens, query, last);
      assert terms == before + [last];
    }
  }

  /** A document's lexical score is never negative, and positive exactly when it shares a term with the query. */
  lemma ScoreIsPositiveIffShared(ln: real -> real, st: Stats, tokens: Tokens, query: Tokens)
    requires LogLike(ln) && Plausible(st)
    ensures var score := ScoreOver(ln, st, tokens, query, Terms(query));
      0.0 <= score && (0.0 < score <==> exists t :: t in query && t in tokens)
  {
    forall t ensures t in Terms(query) <==> t in query { TermsAreTheQuery(query, t); }
    ScoreSign(ln, st, tokens, query, Terms(query));
  }

  // ------------------------------------------------------------------
  // Ranking and selecting
  // ------------------------------------------------------------------

  /** A scored snippet, by its place in the knowledge base. */
  datatype Hit = Hit(score: real, at: nat)

  predicate Heard(s: Snippet, audience: Audience) {
    audience.Everyone? || s.audience.Everyone? || s.audience == audience
  }

  /** The boost for the course asked about, the penalty for another one, or for any when none was chosen. */
  function Scoped(score: real, s: Snippet, course: Option<string>): real {
    var scoped :=
      if course.Some? && course.value != "" then
        if s.course == course then score * 1.8 + 0.5 else if s.course.Some? then score * 0.35 else score
      else if s.course.Some? then score * 0.55
      else score;
    scoped * s.weight
  }

  predicate Descending(hits: seq<Hit>) {
    forall i, j :: 0 <= i < j < |hits| ==> hits[i].score >= hits[j].score
  }

  /** Behind every hit that scores at least as much. */
  function Inserted(hits: seq<Hit>, h: Hit): seq<Hit> {
    if hits == [] || hits[0].score < h.score then [h] + hits else [hits[0]] + Inserted(hits[1..], h)
  }

  /** Best first; equal scores keep their order. */
  function Ranked(hits: seq<Hit>): seq<Hit> {
    if hits == [] then [] else Inserted(Ranked(hits[..|hits| - 1]), hits[|hits| - 1])
  }

  lemma {:induction false} InsertedStaysBelow(hits: seq<Hit>, h: Hit, bound: real)
    requires h.score <= bound && forall i :: 0 <= i < |hits| ==> hits[i].score <= bound
    ensures forall i :: 0 <= i < |Inserted(hits, h)| ==> Inserted(hits, h)[i].score <= bound
  {
    if !(hits == [] || hits[0].score < h.score) {
      InsertedStaysBelow(hits[1..], h, bound);
    }
  }

  lemma {:induction false} InsertedKeepsOrder(hits: seq<Hit>, h: Hit)
    requires Descending(hits)
    ensures Descending(Inserted(hits, h))
  {
    if !(hits == [] || hits[0].score < h.score) {
      InsertedKeepsOrder(hits[1..], h);
      InsertedStaysBelow(hits[1..], h, hits[0].score);
    }
  }

  lemma {:induction false} InsertedAddsOne(hits: seq<Hit>, h: Hit)
    ensures multiset(Inserted(hits, h)) == multiset(hits) + multiset{h}
  {
    if hits == [] || hits[0].score < h.score {
      assert multiset([h] + hits) == multiset{h} + multiset(hits);
    } else {
      InsertedAddsOne(hits[1..], h);
      assert hits == [hits[0]] + hits[1..];
    }
  }

  lemma {:induction false} RankedIsSorted(hits: seq<Hit>)
    ensures Descending(Ranked(hits)) && multiset(Ranked(hits)) == multiset(hits)
  {
    if hits != [] {
      RankedIsSorted(hits[..|hits| - 1]);
      InsertedKeepsOrder(Ranked(hits[..|hits| - 1]), hits[|hits| - 1]);
      InsertedAddsOne(Ranked(hits[..|hits| - 1]), hits[|hits| - 1]);
      assert hits == hits[..|hits| - 1] + [hits[|hits| - 1]];
    }
  }

  /** The rules a selection stops at. */
  datatype Limits = Limits(cutoff: real, count: nat, budget: nat)

  /** How many hits are taken when k have been, of `used` characters. */
  function Taken(hits: seq<Hit>, sizes: nat -> nat, l: Limits, k: nat, used: nat): (n: nat)
    requires k <= |hits|
    ensures k <= n <= |hits|
    decreases |hits| - k
  {
    if k == |hits| || hits[k].score < l.cutoff || l.count <= k || (l.budget < used + sizes(hits[k].at) && 0 < k) then k
    else Taken(hits, sizes, l, k + 1, used + sizes(hits[k].at))
  }

  function Characters(hits: seq<Hit>, sizes: nat -> nat): nat {
    if hits == [] then 0 else Characters(hits[..|hits| - 1], sizes) + sizes(hits[|hits| - 1].at)
  }

  /** The selection is within every limit and stops only at one. */
  ghost predicate WellTaken(hits: seq<Hit>, sizes: nat -> nat, l: Limits, n: nat)
    requires n <= |hits|
  {
    && (forall i :: 0 <= i < n ==> l.cutoff <= hits[i].score)
    && n <= l.count && (Characters(hits[..n], sizes) <= l.budget || n == 1)
    && (n == |hits| || hits[n].score < l.cutoff || n == l.count || l.budget < Characters(hits[..n + 1], sizes))
  }

  lemma {:induction false} TakenIsWellTaken(hits: seq<Hit>, sizes: nat -> nat, l: Limits, k: nat)
    requires k <= |hits| && k <= l.count
    requires forall i :: 0 <= i < k ==> l.cutoff <= hits[i].score
    requires Characters(hits[..k], sizes) <= l.budget || k <= 1
    ensures var n := Taken(hits, sizes, l, k, Characters(hits[..k], sizes));
      k <= n <= |hits| && WellTaken(hits, sizes, l, n)
    decreases |hits| - k
  {
    if k < |hits| {
      assert hits[..k + 1][..k] == hits[..k];
      assert Characters(hits[..k + 1], sizes) == Characters(hits[..k], sizes) + sizes(hits[k].at);
      if l.cutoff <= hits[k].score && k < l.count && (Characters(hits[..k + 1], sizes) <= l.budget || k == 0) {
        TakenIsWellTaken(hits, sizes, l, k + 1);
      }
    }
  }

  // ------------------------------------------------------------------
  // The retriever
  // ------------------------------------------------------------------

  function IndexOf(snippets: seq<Snippet>): map<string, Tokens> {
    if snippets == [] then map[]
    else
      var last := snippets[|snippets| - 1];
      IndexOf(snippets[..|snippets| - 1])[last.id := TokensOf(last)]
  }

  lemma {:induction false} IndexHasTheIds(snippets: seq<Snippet>, id: string)
    ensures id in IndexOf(snippets) <==> exists i :: 0 <= i < |snippets| && snippets[i].id == id
  {
    if snippets != [] {
      var n := |snippets| - 1;
      IndexHasTheIds(snippets[..n], id);
      if i :| 0 <= i < n && snippets[..n][i].id == id {
        assert snippets[i].id == id;
      }
      if i :| 0 <= i < |snippets| && snippets[i].id == id {
        assert i < n ==> snippets[..n][i].id == id;
      }
    }
  }

  /** With unique identifiers every snippet has its own entry. */
  lemma {:induction false} IndexIsFaithful(snippets: seq<Snippet>)
    requires UniqueIds(snippets)
    ensures |IndexOf(snippets)| == |snippets|
    ensures forall i :: 0 <= i < |snippets| ==>
      snippets[i].id in IndexOf(snippets) && IndexOf(snippets)[snippets[i].id] == TokensOf(snippets[i])
  {
    if snippets != [] {
      var n := |snippets| - 1;
      IndexIsFaithful(snippets[..n]);
      IndexHasTheIds(snippets[..n], snippets[n].id);
      forall i | 0 <= i < n
        ensures snippets[i].id in IndexOf(snippets) && IndexOf(snippets)[snippets[i].id] == TokensOf(snippets[i])
      {
        assert snippets[..n][i] == snippets[i];
      }
    }
  }

  lemma IndexIsEmptyWithoutSnippets(snippets: seq<Snippet>)
    requires |IndexOf(snippets)| == 0
    ensures snippets == []
  {
    if snippets != [] {
      IndexHasTheIds(snippets, snippets[0].id);
    }
  }

  /** The tokens of all snippets, repeated fields included. */
  function TotalLength(snippets: seq<Snippet>): nat {
    if snippets == [] then 0
    else TotalLength(snippets[..|snippets| - 1]) + |TokensOf(snippets[|snippets| - 1])|
  }

  /** How many tokens an indexed document has on average, but at least one. */
  function AverageLength(snippets: seq<Snippet>): real {
    var count := if |IndexOf(snippets)| == 0 then 1 else |IndexOf(snippets)|;
    var mean := TotalLength(snippets) as real / count as real;
    if mean < 1.0 then 1.0 else mean
  }

  class KeywordRetriever {
    const snippets: seq<Snippet>
    const ln: real -> real
    const defaultLimit: nat
    const defaultMaxChars: nat
    var index: map<string, Tokens>
    var docFreq: map<Token, nat>
    var average: real

    constructor (snippets: seq<Snippet>, ln: real -> real, defaultLimit: nat, defaultMaxChars: nat)
      ensures this.snippets == snippets && this.ln == ln
      ensures this.defaultLimit == defaultLimit && this.defaultMaxChars == defaultMaxChars
      ensures Valid()
    {
      this.snippets, this.ln, this.defaultLimit, this.defaultMaxChars := snippets, ln, defaultLimit, defaultMaxChars;
      index, docFreq, average := map[], map[], 1.0;
      new;
      BuildIndex();
    }

    function Counts(): Stats
      reads this
    {
      Stats(|index|, docFreq, average)
    }

    /** The aggregate counts are those of the snippets. */
    ghost predicate Valid()
      reads this
    {
      && index == IndexOf(snippets) && average == AverageLength(snippets)
      && forall term :: DocFreq(Counts(), term) == Containing(snippets, term)
    }

    /** Tokenise every snippet once, counting each term once a document. */
    method BuildIndex()
      requires index == map[] && docFreq == map[]
      modifies this
      ensures Valid()
    {
      var totalLength := 0;
      for i := 0 to |snippets|
        invariant index == IndexOf(snippets[..i]) && totalLength == TotalLength(snippets[..i])
        invariant forall term :: DocFreq(Counts(), term) == Containing(snippets[..i], term)
      {
        assert snippets[..i + 1][..i] == snippets[..i];
        var tokens := TokensOf(snippets[i]);
        index := index[snippets[i].id := tokens];
        totalLength := totalLength + |tokens|;
        CountTerms(tokens);
      }
      assert snippets[..|snippets|] == snippets;
      var count := if |index| == 0 then 1 else |index|;
      average := if totalLength as real / count as real < 1.0 then 1.0 else totalLength as real / count as real;
    }

    /** Each distinct term of a document counts once. */
    method CountTerms(tokens: Tokens)
      modifies this`docFreq
      ensures forall term :: DocFreq(Counts(), term) == DocFreq(old(Counts()), term) + if term in tokens then 1 else 0
    {
      var rest := set t | t in tokens;
      while rest != {}
        invariant forall term :: term in rest ==> term in tokens
        invariant forall term ::
          DocFreq(Counts(), term) == DocFreq(old(Counts()), term) + if term in tokens && term !in rest then 1 else 0
        decreases |rest|
      {
        var term :| term in rest;
        docFreq := docFreq[term := (if term in docFreq then docFreq[term] else 0) + 1];
        rest := rest - {term};
      }
    }

    lemma IdfOfTermIsNotNegative(term: Token)
      requires Valid() && LogLike(ln)
      ensures 0.0 <= Idf(ln, Counts(), term) <==> Containing(snippets, term) <= |IndexOf(snippets)|
    {
      if |index| == 0 {
        IndexIsEmptyWithoutSnippets(snippets);
      }
      assert DocFreq(Counts(), term) == Containing(snippets, term);
      IdfSign(ln, if |index| == 0 then 1 else |index|, DocFreq(Counts(), term));
    }

    /** No inverse document frequency of the built index is negative, exactly when no term is in
    more snippets than there are distinct identifiers. */
    lemma IdfIsNeverNegativeExactlyWhen()
      requires Valid() && LogLike(ln)
      ensures NeverNegative(ln, Counts()) <==> WithinCount(snippets, |IndexOf(snippets)|)
    {
      forall term
        ensures 0.0 <= Idf(ln, Counts(), term) <==> Containing(snippets, term) <= |IndexOf(snippets)|
      {
        IdfOfTermIsNotNegative(term);
      }
    }

    /** With unique identifiers no term is counted in more documents than there are, so no inverse
    document frequency is negative. */
    lemma UniqueIdsMakeCountsPlausible()
      requires Valid() && UniqueIds(snippets)
      ensures Plausible(Counts()) && |index| == |snippets|
      ensures LogLike(ln) ==> NeverNegative(ln, Counts())
    {
      IndexIsFaithful(snippets);
      forall term ensures Containing(snippets, term) <= |IndexOf(snippets)| {
        ContainingAtMost(snippets, term);
      }
      if LogLike(ln) {
        IdfIsNeverNegativeExactlyWhen();
      }
    }

    lemma OneMoreTerm(tokens: Tokens, query: Tokens, terms: Tokens, i: nat)
      requires 1.0 <= average && i < |terms|
      ensures ScoreOver(ln, Counts(), tokens, query, terms[..i + 1])
           == ScoreOver(ln, Counts(), tokens, query, terms[..i]) + TermScore(ln, Counts(), tokens, query, terms[i])
    {
      assert terms[..i + 1][..i] == terms[..i];
    }

    method ScoreOf(tokens: Tokens, query: Tokens) returns (score: real)
      requires 1.0 <= average
      ensures score == ScoreOver(ln, Counts(), tokens, query, Terms(query))
    {
      var terms := Terms(query);
      score := 0.0;
      for i := 0 to |terms|
        invariant score == ScoreOver(ln, Counts(), tokens, query, terms[..i])
      {
        OneMoreTerm(tokens, query, terms, i);
        var tf := Count(tokens, terms[i]);
        if tf == 0 {
          continue;
        }
        var norm := Saturation(tf, |tokens|, average);
        score := score + Idf(ln, Counts(), terms[i]) * norm * Count(query, terms[i]) as real * TermWeight(terms[i]);
      }
      assert terms[..|terms|] == terms;
    }

    // ----------------------------------------------------------------
    // Retrieval
    // ----------------------------------------------------------------

    function Indexed(id: string): Tokens
      reads this
    {
      if id in index then index[id] else []
    }

    /** The final score of a snippet for this query. */
    function FinalScore(i: nat, query: Tokens, course: Option<string>): real
      requires i < |snippets| && 1.0 <= average
      reads this
    {
      Scoped(ScoreOver(ln, Counts(), Indexed(snippets[i].id), query, Terms(query)), snippets[i], course)
    }

    /** The snippets among the first n that are for this audience and score above zero. */
    function HitsAmong(n: nat, query: Tokens, course: Option<string>, audience: Audience): seq<Hit>
      requires n <= |snippets| && 1.0 <= average
      reads this
    {
      if n == 0 then []
      else
        var before := HitsAmong(n - 1, query, course, audience);
        var score := FinalScore(n - 1, query, course);
        if Heard(snippets[n - 1], audience) && 0.0 < score then before + [Hit(score, n - 1)] else before
    }

    function OrDefault(given: Option<nat>, fallback: nat): nat {
      if given.Some? && given.value != 0 then given.value else fallback
    }

    function Size(i: nat): nat {
      if i < |snippets| then snippets[i].size else 0
    }

    /** The last snippet with this identifier. */
    function Find(id: string, n: nat): (k: Option<nat>)
      requires n <= |snippets|
      ensures k.Some? ==> k.value < n && snippets[k.value].id == id
    {
      if n == 0 then None else if snippets[n - 1].id == id then Some(n - 1) else Find(id, n - 1)
    }

    predicate Picked(picks: seq<nat>, s: Snippet) {
      exists j :: 0 <= j < |picks| && picks[j] < |snippets| && snippets[picks[j]] == s
    }

    function WithPick(picks: seq<nat>, id: string): seq<nat> {
      var k := Find(id, |snippets|);
      if k.Some? && !Picked(picks, snippets[k.value]) then picks + [k.value] else picks
    }

    /** With no lexical overlap: the course overview and the company basics. */
    function Fallback(course: Option<string>, limit: nat): seq<nat> {
      var overview :=
        if course.Some? && course.value != "" then WithPick([], "course:" + course.value + ":overview") else [];
      var picks := WithPick(WithPick(overview, "company:about"), "company:contact");
      if |picks| <= limit then picks else picks[..limit]
    }

    function LimitsFor(top: real, limit: Option<nat>, maxChars: Option<nat>): Limits {
      Limits(top * 0.25, OrDefault(limit, defaultLimit), OrDefault(maxChars, defaultMaxChars))
    }

    function Places(hits: seq<Hit>): seq<nat> {
      seq(|hits|, i requires 0 <= i < |hits| => hits[i].at)
    }

    method CollectHits(query: Tokens, course: Option<string>, audience: Audience) returns (hits: seq<Hit>)
      requires 1.0 <= average
      ensures hits == HitsAmong(|snippets|, query, course, audience)
    {
      hits := [];
      for i := 0 to |snippets|
        invariant hits == HitsAmong(i, query, course, audience)
      {
        if !Heard(snippets[i], audience) {
          continue;
        }
        var score := ScoreOf(Indexed(snippets[i].id), query);
        score := Scoped(score, snippets[i], course);
        if 0.0 < score {
          hits := hits + [Hit(score, i)];
        }
      }
    }

    /** The snippets retrieved for a query whose hits, best first, are these. */
    function Retrieved(ranked: seq<Hit>, course: Option<string>, limit: Option<nat>, maxChars: Option<nat>): seq<nat> {
      if ranked == [] then Fallback(course, OrDefault(limit, defaultLimit))
      else Places(ranked[..Taken(ranked, Size, LimitsFor(ranked[0].score, limit, maxChars), 0, 0)])
    }

    method Retrieve(
        words: seq<string>, course: Option<string>, audience: Audience, limit: Option<nat>, maxChars: Option<nat>)
      returns (picked: seq<nat>)
      requires 1.0 <= average
      ensures picked
           == Retrieved(Ranked(HitsAmong(|snippets|, Tokenize(words), course, audience)), course, limit, maxChars)
    {
      var hits := CollectHits(Tokenize(words), course, audience);
      var ranked := SortByScore(hits);
      if ranked == [] {
        return Fallback(course, OrDefault(limit, defaultLimit));
      }
      picked := Select(ranked, LimitsFor(ranked[0].score, limit, maxChars));
    }

    method SortByScore(hits: seq<Hit>) returns (ranked: seq<Hit>)
      ensures ranked == Ranked(hits)
    {
      ranked := [];
      for i := 0 to |hits|
        invariant ranked == Ranked(hits[..i])
      {
        assert hits[..i + 1][..i] == hits[..i];
        ranked := Inserted(ranked, hits[i]);
      }
      assert hits[..|hits|] == hits;
    }

    method Select(ranked: seq<Hit>, l: Limits) returns (picked: seq<nat>)
      ensures picked == Places(ranked[..Taken(ranked, Size, l, 0, 0)])
    {
      picked := [];
      var used := 0;
      for i := 0 to |ranked|
        invariant picked == Places(ranked[..i])
        invariant Taken(ranked, Size, l, i, used) == Taken(ranked, Size, l, 0, 0)
      {
        if ranked[i].score < l.cutoff || l.count <= |picked| {
          break;
        }
        var size := Size(ranked[i].at);
        if l.budget < used + size && picked != [] {
          break;
        }
        assert ranked[..i + 1] == ranked[..i] + [ranked[i]];
        picked := picked + [ranked[i].at];
        used := used + size;
      }
    }

    /** What is retrieved when anything scores: the best hits, in order, each at least a quarter of
    the best score, within the count limit, within the character budget unless it is a single
    snippet; at least one if the count limit allows any; and it stops only at a limit. */
    lemma RetrievalIsWellChosen(
        words: seq<string>, course: Option<string>, audience: Audience, limit: Option<nat>, maxChars: Option<nat>)
      requires Valid()
      requires HitsAmong(|snippets|, Tokenize(words), course, audience) != []
      ensures var hits := HitsAmong(|snippets|, Tokenize(words), course, audience);
        var ranked := Ranked(hits);
        Descending(ranked) && multiset(ranked) == multiset(hits) && ranked != [] &&
        var l := LimitsFor(ranked[0].score, limit, maxChars);
        var n := Taken(ranked, Size, l, 0, 0);
        n <= |ranked| && WellTaken(ranked, Size, l, n) && (0 < l.count ==> 0 < n)
    {
      var hits := HitsAmong(|snippets|, Tokenize(words), course, audience);
      var ranked := Ranked(hits);
      RankedIsSorted(hits);
      assert |multiset(hits)| == |multiset(ranked)|;
      assert ranked[0] in multiset(hits);
      HitsArePositive(|snippets|, Tokenize(words), course, audience);
      var l := LimitsFor(ranked[0].score, limit, maxChars);
      assert Characters(ranked[..0], Size) == 0;
      TakenIsWellTaken(ranked, Size, l, 0);
    }

    lemma {:induction false} HitsArePositive(n: nat, query: Tokens, course: Option<string>, audience: Audience)
      requires n <= |snippets| && 1.0 <= average
      ensures forall h :: h in HitsAmong(n, query, course, audience) ==>
        0.0 < h.score && h.at < n && h.score == FinalScore(h.at, query, course) && Heard(snippets[h.at], audience)
    {
      if n != 0 {
        HitsArePositive(n - 1, query, course, audience);
      }
    }

    lemma {:induction false} PositiveIsHit(n: nat, query: Tokens, course: Option<string>, audience: Audience, i: nat)
      requires i < n <= |snippets| && 1.0 <= average
      requires Heard(snippets[i], audience) && 0.0 < FinalScore(i, query, course)
      ensures Hit(FinalScore(i, query, course), i) in HitsAmong(n, query, course, audience)
    {
      if i < n - 1 {
        PositiveIsHit(n - 1, query, course, audience, i);
      }
    }

    /** With unique identifiers, positive weights and no course chosen, a snippet for this audience
    is a hit exactly when it shares a word or a pair of words with the query. */
    lemma HitIffTermShared(i: nat, words: seq<string>, audience: Audience)
      requires Valid() && UniqueIds(snippets) && LogLike(ln)
      requires i < |snippets| && 0.0 < snippets[i].weight && Heard(snippets[i], audience)
      ensures (exists h :: h in HitsAmong(|snippets|, Tokenize(words), None, audience) && h.at == i)
          <==> (exists t :: t in Tokenize(words) && t in TokensOf(snippets[i]))
    {
      var query := Tokenize(words);
      UniqueIdsMakeCountsPlausible();
      IndexIsFaithful(snippets);
      ScoreIsPositiveIffShared(ln, Counts(), TokensOf(snippets[i]), query);
      HitsArePositive(|snippets|, query, None, audience);
      var score := ScoreOver(ln, Counts(), TokensOf(snippets[i]), query, Terms(query));
      ScopedSign(score, snippets[i]);
      if 0.0 < FinalScore(i, query, None) {
        PositiveIsHit(|snippets|, query, None, audience, i);
      }
    }
  }

  lemma ScopedSign(score: real, s: Snippet)
    requires 0.0 <= score && 0.0 < s.weight
    ensures 0.0 < Scoped(score, s, None) <==> 0.0 < score
  {
    PositiveProduct(if s.course.Some? then score * 0.55 else score, s.weight);
  }

  /** With a repeated identifier the document count falls behind: a term of both snippets gets a
  negative document frequency. */
  lemma RepeatedIdTurnsNegative(s: Snippet, term: Token, ln: real -> real)
    requires LogLike(ln) && term in TokensOf(s)
    ensures |IndexOf([s, s])| < Containing([s, s], term)
    ensures ln(Rarity(|IndexOf([s, s])|, Containing([s, s], term))) < 0.0
  {
    assert [s, s][..1] == [s] && [s][..0] == [];
    assert Containing([s], term) == 1;
    assert IndexOf([s]) == map[s.id := TokensOf(s)];
    assert IndexOf([s, s]) == map[s.id := TokensOf(s)];
    IdfSign(ln, 1, 2);
  }
}
