/** The BM25 index over runbooks and its scores
    (python/app/infrastructure/runbook_search.py). */
module Bm25 {
  import opened Collections
  import opened Text
  import S = RunbookStore

  // ---------- Tokens ----------

  predicate IsWordChar(c: char)
  {
    'a' <= c <= 'z' || '0' <= c <= '9' || c == '_' || c == '-'
  }

  /** A run of one character is no token. */
  function Token(run: string): seq<string>
  {
    if |run| > 1 then [run] else []
  }

  /** The maximal runs of word characters, the first one continuing run. */
  function Scan(text: string, run: string): seq<string>
    decreases |text|
  {
    if text == "" then Token(run)
    else if IsWordChar(text[0]) then Scan(text[1..], run + [text[0]])
    else Token(run) + Scan(text[1..], "")
  }

  function Tokenize(text: string): seq<string>
  {
    Scan(Lower(text), "")
  }

  lemma {:induction false} ScanSplits(a: string, b: string, run: string)
    ensures Scan(a + " " + b, run) == Scan(a, run) + Scan(b, "")
    decreases |a|
  {
    var text := a + " " + b;
    if a == "" {
      assert text[1..] == b;
    } else {
      assert text[1..] == a[1..] + " " + b;
      ScanSplits(a[1..], b, if IsWordChar(a[0]) then run + [a[0]] else "");
    }
  }

  /** Fields joined by a space never run together. */
  lemma TokensOfJoin(a: string, b: string)
    ensures Tokenize(a + " " + b) == Tokenize(a) + Tokenize(b)
  {
    assert Lower(a + " " + b) == Lower(a) + " " + Lower(b);
    ScanSplits(Lower(a), Lower(b), "");
  }

  function DocText(v: S.Version): string
  {
    var c := v.content;
    S.Join([c.title, S.Join(c.symptoms, " "), c.rootCause, c.resolution, S.Join(c.tags, " "), c.component], " ")
  }

  // ---------- The index ----------

  /** An indexed runbook: its id and how often each term occurs. */
  datatype Doc = Doc(id: string, terms: multiset<string>)

  datatype Index = Index(docs: seq<Doc>, df: map<string, nat>, docCount: nat, avgLength: real)

  function DocOf(v: S.Version): Doc
  {
    Doc(v.content.id, multiset(Tokenize(DocText(v))))
  }

  /** Runbooks without any token are not indexed. */
  function Indexed(v: S.Version): seq<Doc>
  {
    if Tokenize(DocText(v)) == [] then [] else [DocOf(v)]
  }

  function Indexer(): S.Version -> seq<Doc>
  {
    (v: S.Version) => Indexed(v)
  }

  function Docs(vs: seq<S.Version>): seq<Doc>
  {
    FlatMap(vs, Indexer())
  }

  function HasTerm(t: string): Doc -> bool
  {
    (d: Doc) => t in d.terms
  }

  function TotalLength(docs: seq<Doc>): nat
  {
    if docs == [] then 0 else TotalLength(docs[..|docs| - 1]) + |docs[|docs| - 1].terms|
  }

  function Df(df: map<string, nat>, t: string): nat
  {
    if t in df then df[t] else 0
  }

  ghost predicate CountsDocs(df: map<string, nat>, docs: seq<Doc>)
  {
    forall t :: Df(df, t) == Count(docs, HasTerm(t))
  }

  /** The index agrees with the documents it was built from. */
  ghost predicate Exact(ix: Index)
  {
    && ix.docCount == |ix.docs| && CountsDocs(ix.df, ix.docs)
    && (forall d | d in ix.docs :: |d.terms| > 0)
    && (ix.docs != [] ==> ix.avgLength == TotalLength(ix.docs) as real / |ix.docs| as real)
  }

  lemma CountsOneMore(df: map<string, nat>, after: map<string, nat>, docs: seq<Doc>, d: Doc)
    requires CountsDocs(df, docs)
    requires forall t :: Df(after, t) == Df(df, t) + (if t in d.terms then 1 else 0)
    ensures CountsDocs(after, docs + [d])
  {
    forall t ensures Df(after, t) == Count(docs + [d], HasTerm(t))
    {
      CountAppend(docs, d, HasTerm(t));
    }
  }

  lemma IndexedNonempty(v: S.Version)
    ensures forall d | d in Indexed(v) :: |d.terms| > 0 && d == DocOf(v)
  {
    assert |multiset(Tokenize(DocText(v)))| == |Tokenize(DocText(v))|;
  }

  lemma DocsNonempty(vs: seq<S.Version>)
    ensures forall d | d in Docs(vs) :: |d.terms| > 0
  {
    forall d | d in Docs(vs) ensures |d.terms| > 0
    {
      var i := FlatMapMember(vs, Indexer(), d);
      IndexedNonempty(vs[i]);
    }
  }

  // ---------- Scores ----------

  datatype Params = Params(k1: real, b: real, log: real -> real)

  /** The usual parameter range, and the one fact needed of the logarithm. */
  ghost predicate Proper(p: Params)
  {
    p.k1 >= 0.0 && 0.0 <= p.b <= 1.0 && forall x: real :: x > 1.0 ==> p.log(x) > 0.0
  }

  function Idf(p: Params, ix: Index, t: string): real
  {
    var df := Df(ix.df, t) as real;
    p.log((ix.docCount as real - df + 0.5) / (df + 0.5) + 1.0)
  }

  function Norm(k1: real, b: real, length: real, average: real): real
    requires average != 0.0
  {
    k1 * (1.0 - b + b * length / average)
  }

  /** The part of the denominator that grows with the document's length. */
  function Weight(p: Params, ix: Index, d: Doc): real
    requires ix.avgLength != 0.0
  {
    Norm(p.k1, p.b, |d.terms| as real, ix.avgLength)
  }

  predicate Scorable(p: Params, ix: Index, d: Doc)
  {
    ix.avgLength > 0.0 && Weight(p, ix, d) >= 0.0
  }

  /** The share of a term frequency that counts. */
  function Saturation(tf: real, k1: real, w: real): real
    requires tf + w > 0.0
  {
    (tf * (k1 + 1.0)) / (tf + w)
  }

  /** What a term of the given idf contributes to a document. */
  function Contribution(idf: real, tf: real, k1: real, w: real): real
    requires tf + w > 0.0
  {
    idf * Saturation(tf, k1, w)
  }

  function TermScore(p: Params, ix: Index, d: Doc, t: string): real
    requires Scorable(p, ix, d)
  {
    if t !in d.terms || Df(ix.df, t) == 0 then 0.0
    else Contribution(Idf(p, ix, t), d.terms[t] as real, p.k1, Weight(p, ix, d))
  }

  function Sum(xs: seq<real>): real
  {
    if xs == [] then 0.0 else Sum(xs[..|xs| - 1]) + xs[|xs| - 1]
  }

  function TermScores(p: Params, ix: Index, d: Doc, query: seq<string>): seq<real>
    requires Scorable(p, ix, d)
  {
    seq(|query|, i requires 0 <= i < |query| => TermScore(p, ix, d, query[i]))
  }

  function Score(p: Params, ix: Index, d: Doc, query: seq<string>): real
    requires Scorable(p, ix, d)
  {
    Sum(TermScores(p, ix, d, query))
  }

  /** The idf of each query token that occurs in the document, 0 for the others. */
  function MatchedIdf(p: Params, ix: Index, d: Doc, query: seq<string>): seq<real>
  {
    seq(|query|, i requires 0 <= i < |query| => if query[i] in d.terms then Idf(p, ix, query[i]) else 0.0)
  }

  predicate Shares(d: Doc, query: seq<string>)
  {
    exists i | 0 <= i < |query| :: query[i] in d.terms
  }

  lemma {:induction false} LengthPositive(docs: seq<Doc>)
    requires docs != [] && forall d | d in docs :: |d.terms| > 0
    ensures TotalLength(docs) > 0
  {
    assert docs[|docs| - 1] in docs;
  }

  lemma QuotientPositive(a: real, b: real)
    requires a > 0.0 && b > 0.0
    ensures a / b > 0.0
  {}

  lemma ProductNonnegative(a: real, b: real)
    requires a >= 0.0 && b >= 0.0
    ensures a * b >= 0.0
  {}

  lemma AveragePositive(ix: Index)
    requires Exact(ix) && ix.docs != []
    ensures ix.avgLength > 0.0
  {
    LengthPositive(ix.docs);
    QuotientPositive(TotalLength(ix.docs) as real, |ix.docs| as real);
  }

  lemma QuotientNonnegative(a: real, b: real)
    requires a >= 0.0 && b > 0.0
    ensures a / b >= 0.0
  {}

  lemma NormNonnegative(k1: real, b: real, length: real, average: real)
    requires k1 >= 0.0 && 0.0 <= b <= 1.0 && length >= 0.0 && average > 0.0
    ensures Norm(k1, b, length, average) >= 0.0
  {
    ProductNonnegative(b, length);
    QuotientNonnegative(b * length, average);
    ProductNonnegative(k1, 1.0 - b + b * length / average);
  }

  lemma DocScorable(p: Params, ix: Index, d: Doc)
    requires Proper(p) && Exact(ix) && d in ix.docs
    ensures Scorable(p, ix, d)
  {
    AveragePositive(ix);
    NormNonnegative(p.k1, p.b, |d.terms| as real, ix.avgLength);
  }

  /** Every indexed term has a positive idf: a document frequency never exceeds the
      number of documents. */
  lemma IdfPositive(p: Params, ix: Index, d: Doc, t: string)
    requires Proper(p) && Exact(ix) && d in ix.docs && t in d.terms
    ensures 1 <= Df(ix.df, t) <= ix.docCount && Idf(p, ix, t) > 0.0
  {
    var i :| 0 <= i < |ix.docs| && ix.docs[i] == d;
    CountOne(ix.docs, i, HasTerm(t));
    CountBound(ix.docs, HasTerm(t));
    var df := Df(ix.df, t) as real;
    QuotientPositive(ix.docCount as real - df + 0.5, df + 0.5);
  }

  lemma ProductPositive(a: real, b: real)
    requires a > 0.0 && b > 0.0
    ensures a * b > 0.0
  {}

  lemma ScaleKeepsOrder(x: real, y: real, b: real)
    requires x > y && b > 0.0
    ensures x * b > y * b
  {
    ProductPositive(x - y, b);
    assert (x - y) * b == x * b - y * b;
  }

  lemma QuotientAtMost(a: real, b: real, bound: real)
    requires b > 0.0 && a <= bound * b
    ensures a / b <= bound
  {
    var q := a / b;
    assert q * b == a;
    if q > bound {
      ScaleKeepsOrder(q, bound, b);
    }
  }

  lemma SaturationBound(tf: real, k1: real, w: real)
    requires tf > 0.0 && k1 >= 0.0 && w >= 0.0
    ensures 0.0 < Saturation(tf, k1, w) <= k1 + 1.0
  {
    ProductPositive(tf, k1 + 1.0);
    QuotientPositive(tf * (k1 + 1.0), tf + w);
    ProductNonnegative(k1 + 1.0, w);
    assert (k1 + 1.0) * (tf + w) == tf * (k1 + 1.0) + (k1 + 1.0) * w;
    QuotientAtMost(tf * (k1 + 1.0), tf + w, k1 + 1.0);
  }

  lemma ScaleBound(x: real, q: real, bound: real)
    requires x > 0.0 && 0.0 < q <= bound
    ensures 0.0 < x * q <= bound * x
  {
    ProductPositive(x, q);
    ProductNonnegative(x, bound - q);
    assert x * (bound - q) == bound * x - x * q;
  }

  lemma TermScoreBounds(p: Params, ix: Index, d: Doc, t: string)
    requires Proper(p) && Exact(ix) && d in ix.docs && Scorable(p, ix, d)
    ensures t in d.terms ==> 0.0 < TermScore(p, ix, d, t) <= (p.k1 + 1.0) * Idf(p, ix, t)
    ensures t !in d.terms ==> TermScore(p, ix, d, t) == 0.0
  {
    if t in d.terms {
      IdfPositive(p, ix, d, t);
      TermScoreWithin(p, ix, d, t, Idf(p, ix, t), Weight(p, ix, d));
    }
  }

  lemma TermScoreWithin(p: Params, ix: Index, d: Doc, t: string, idf: real, w: real)
    requires p.k1 >= 0.0 && Scorable(p, ix, d) && t in d.terms && Df(ix.df, t) > 0
    requires idf == Idf(p, ix, t) > 0.0 && w == Weight(p, ix, d)
    ensures 0.0 < TermScore(p, ix, d, t) <= (p.k1 + 1.0) * idf
  {
    var tf := d.terms[t] as real;
    SaturationBound(tf, p.k1, w);
    ScaleBound(idf, Saturation(tf, p.k1, w), p.k1 + 1.0);
  }

  lemma SumWithin(a: real, b: real, m: real, n: real, c: real)
    requires 0.0 <= a <= c * m && 0.0 <= b <= c * n
    ensures 0.0 <= a + b <= c * (m + n)
  {
    assert c * (m + n) == c * m + c * n;
  }

  lemma {:induction false} SumBounds(xs: seq<real>, ys: seq<real>, c: real)
    requires |xs| == |ys| && forall i :: 0 <= i < |xs| ==> 0.0 <= xs[i] <= c * ys[i]
    ensures 0.0 <= Sum(xs) <= c * Sum(ys)
  {
    if xs != [] {
      var n := |xs| - 1;
      SumBounds(xs[..n], ys[..n], c);
      SumWithin(Sum(xs[..n]), xs[n], Sum(ys[..n]), ys[n], c);
    }
  }

  ghost predicate SomePositive(xs: seq<real>)
  {
    exists i :: 0 <= i < |xs| && xs[i] > 0.0
  }

  lemma SomePositiveStep(xs: seq<real>)
    requires xs != []
    ensures SomePositive(xs) <==> SomePositive(xs[..|xs| - 1]) || xs[|xs| - 1] > 0.0
  {
    var before := xs[..|xs| - 1];
    if i :| 0 <= i < |before| && before[i] > 0.0 {
      assert xs[i] > 0.0;
    }
    if i :| 0 <= i < |xs| && xs[i] > 0.0 {
      assert i < |before| ==> before[i] > 0.0;
    }
  }

  lemma {:induction false} SumPositive(xs: seq<real>)
    requires forall i :: 0 <= i < |xs| ==> xs[i] >= 0.0
    ensures Sum(xs) >= 0.0
    ensures Sum(xs) > 0.0 <==> SomePositive(xs)
  {
    if xs != [] {
      SumPositive(xs[..|xs| - 1]);
      SomePositiveStep(xs);
    }
  }

  lemma TermBoundsAt(p: Params, ix: Index, d: Doc, query: seq<string>, i: nat)
    requires Proper(p) && Exact(ix) && d in ix.docs && Scorable(p, ix, d) && i < |query|
    ensures 0.0 <= TermScores(p, ix, d, query)[i] <= (p.k1 + 1.0) * MatchedIdf(p, ix, d, query)[i]
    ensures TermScores(p, ix, d, query)[i] > 0.0 <==> query[i] in d.terms
  {
    TermScoreBounds(p, ix, d, query[i]);
  }

  /** Each term score is 0 or positive as the token matches, and bounded by c times ys. */
  ghost predicate TermsBounded(xs: seq<real>, ys: seq<real>, c: real, query: seq<string>, d: Doc)
  {
    && |xs| == |ys| == |query|
    && (forall i :: 0 <= i < |query| ==> 0.0 <= xs[i] <= c * ys[i])
    && (forall i :: 0 <= i < |query| ==> (xs[i] > 0.0 <==> query[i] in d.terms))
  }

  lemma AllTermBounds(p: Params, ix: Index, d: Doc, query: seq<string>, xs: seq<real>, ys: seq<real>)
    requires Proper(p) && Exact(ix) && d in ix.docs && Scorable(p, ix, d)
    requires xs == TermScores(p, ix, d, query) && ys == MatchedIdf(p, ix, d, query)
    ensures TermsBounded(xs, ys, p.k1 + 1.0, query, d)
  {
    forall i | 0 <= i < |query| ensures 0.0 <= xs[i] <= (p.k1 + 1.0) * ys[i] && (xs[i] > 0.0 <==> query[i] in d.terms)
    {
      TermBoundsAt(p, ix, d, query, i);
    }
  }

  lemma PositiveIffShared(xs: seq<real>, query: seq<string>, d: Doc)
    requires |xs| == |query| && forall i :: 0 <= i < |query| ==> (xs[i] > 0.0 <==> query[i] in d.terms)
    ensures SomePositive(xs) <==> Shares(d, query)
  {
    if Shares(d, query) {
      var i :| 0 <= i < |query| && query[i] in d.terms;
      assert xs[i] > 0.0;
    }
  }

  /** k1 + 1 times the idf of the matched tokens. */
  function Ceiling(k1: real, idfs: seq<real>): real
  {
    (k1 + 1.0) * Sum(idfs)
  }

  lemma {:induction false} SumAtMost(xs: seq<real>, ys: seq<real>, k1: real, query: seq<string>, d: Doc)
    requires TermsBounded(xs, ys, k1 + 1.0, query, d)
    ensures Sum(xs) <= Ceiling(k1, ys)
  {
    SumBounds(xs, ys, k1 + 1.0);
  }

  lemma {:induction false} SumSigned(xs: seq<real>, ys: seq<real>, c: real, query: seq<string>, d: Doc)
    requires TermsBounded(xs, ys, c, query, d)
    ensures 0.0 <= Sum(xs)
    ensures Sum(xs) > 0.0 <==> Shares(d, query)
  {
    SumPositive(xs);
    PositiveIffShared(xs, query, d);
  }

  lemma {:induction false} ScoreSigned(p: Params, ix: Index, d: Doc, query: seq<string>)
    requires Proper(p) && Exact(ix) && d in ix.docs && Scorable(p, ix, d)
    ensures 0.0 <= Score(p, ix, d, query)
    ensures Score(p, ix, d, query) > 0.0 <==> Shares(d, query)
  {
    var xs, ys := TermScores(p, ix, d, query), MatchedIdf(p, ix, d, query);
    AllTermBounds(p, ix, d, query, xs, ys);
    SumSigned(xs, ys, p.k1 + 1.0, query, d);
  }

  lemma {:induction false} ScoreAtMost(p: Params, ix: Index, d: Doc, query: seq<string>)
    requires Proper(p) && Exact(ix) && d in ix.docs && Scorable(p, ix, d)
    ensures Score(p, ix, d, query) <= Ceiling(p.k1, MatchedIdf(p, ix, d, query))
  {
    var xs, ys := TermScores(p, ix, d, query), MatchedIdf(p, ix, d, query);
    AllTermBounds(p, ix, d, query, xs, ys);
    SumAtMost(xs, ys, p.k1, query, d);
  }

  /** A score is positive exactly when the document shares a token with the query,
      and never exceeds k1 + 1 times the idf of the matched tokens. */
  lemma {:induction false} ScoreBounds(p: Params, ix: Index, d: Doc, query: seq<string>)
    requires Proper(p) && Exact(ix) && d in ix.docs && Scorable(p, ix, d)
    ensures 0.0 <= Score(p, ix, d, query) <= Ceiling(p.k1, MatchedIdf(p, ix, d, query))
    ensures Score(p, ix, d, query) > 0.0 <==> Shares(d, query)
  {
    ScoreSigned(p, ix, d, query);
    ScoreAtMost(p, ix, d, query);
  }

  // ---------- What ranks higher ----------

  /** A logarithm that grows. */
  ghost predicate Increasing(log: real -> real)
  {
    forall x: real, y: real :: 0.0 < x < y ==> log(x) < log(y)
  }

  lemma InverseOrder(a: real, b: real)
    requires 0.0 < a < b
    ensures 1.0 / b < 1.0 / a
  {
    var p, q := 1.0 / a, 1.0 / b;
    QuotientPositive(1.0, a);
    QuotientPositive(1.0, b);
    assert a * p == 1.0 && b * q == 1.0;
    ProductPositive(p, q);
    ProductPositive(b - a, p * q);
    assert (b - a) * (p * q) == (b * q) * p - (a * p) * q;
  }

  lemma RarityOrder(n: real, few: real, many: real)
    requires 0.0 <= few < many <= n
    ensures (n - few + 0.5) / (few + 0.5) > (n - many + 0.5) / (many + 0.5) > 0.0
  {
    var a, b := few + 0.5, many + 0.5;
    QuotientPositive(n - many + 0.5, b);
    InverseOrder(a, b);
    assert (n - few + 0.5) / a == ((n + 1.0) - a) / a == (n + 1.0) * (1.0 / a) - 1.0 by {
      assert (1.0 / a) * a == 1.0;
    }
    assert (n - many + 0.5) / b == ((n + 1.0) - b) / b == (n + 1.0) * (1.0 / b) - 1.0 by {
      assert (1.0 / b) * b == 1.0;
    }
    ScaleKeepsOrder(1.0 / a, 1.0 / b, n + 1.0);
  }

  /** Of two terms the one found in fewer documents has the greater idf. */
  lemma RarerTermsWeighMore(p: Params, ix: Index, rare: string, common: string)
    requires Increasing(p.log) && Exact(ix) && Df(ix.df, rare) < Df(ix.df, common)
    ensures Idf(p, ix, rare) > Idf(p, ix, common)
  {
    CountBound(ix.docs, HasTerm(common));
    RarityOrder(ix.docCount as real, Df(ix.df, rare) as real, Df(ix.df, common) as real);
  }

  lemma SaturationOrder(more: real, less: real, light: real, heavy: real, k1: real)
    requires more >= less > 0.0 && 0.0 <= light <= heavy && k1 >= 0.0
    ensures Saturation(less, k1, heavy) <= Saturation(more, k1, light)
  {
    var q := (more * (k1 + 1.0)) / (more + light);
    assert q * (more + light) == more * (k1 + 1.0);
    CrossOrder(more, less, light, heavy);
    var c := k1 + 1.0;
    var u := less * c * (more + light);
    assert u <= more * c * (less + heavy) by {
      ProductNonnegative(c, more * heavy - less * light);
      assert c * (more * heavy - less * light) == more * c * (less + heavy) - less * c * (more + light);
    }
    assert more * c * (less + heavy) == q * (less + heavy) * (more + light);
    CancelScale(less * c, q * (less + heavy), more + light);
    QuotientAtMost(less * c, less + heavy, q);
  }

  lemma CrossOrder(more: real, less: real, light: real, heavy: real)
    requires more >= less > 0.0 && 0.0 <= light <= heavy
    ensures less * light <= more * heavy
  {
    ProductNonnegative(less, heavy - light);
    ProductNonnegative(more - less, heavy);
    assert less * (heavy - light) == less * heavy - less * light;
    assert (more - less) * heavy == more * heavy - less * heavy;
  }

  lemma CancelScale(a: real, b: real, m: real)
    requires m > 0.0 && a * m <= b * m
    ensures a <= b
  {
    if a > b {
      ScaleKeepsOrder(a, b, m);
    }
  }

  lemma LongerWeighsMore(p: Params, ix: Index, short: Doc, long: Doc)
    requires Proper(p) && ix.avgLength > 0.0 && |short.terms| <= |long.terms|
    ensures Weight(p, ix, short) <= Weight(p, ix, long)
  {
    NormGrows(p.k1, p.b, |short.terms| as real, |long.terms| as real, ix.avgLength);
  }

  lemma NormGrows(k1: real, b: real, short: real, long: real, average: real)
    requires k1 >= 0.0 && b >= 0.0 && short <= long && average > 0.0
    ensures Norm(k1, b, short, average) <= Norm(k1, b, long, average)
  {
    var x, y := b * short, b * long;
    ProductNonnegative(b, long - short);
    var q := y / average;
    assert q * average == y;
    QuotientAtMost(x, average, q);
    ProductNonnegative(k1, y / average - x / average);
    assert k1 * (y / average - x / average) == k1 * (1.0 - b + y / average) - k1 * (1.0 - b + x / average);
  }

  lemma ScaleOrder(x: real, low: real, high: real)
    requires x > 0.0 && low <= high
    ensures x * low <= x * high
  {
    ProductNonnegative(x, high - low);
    assert x * (high - low) == x * high - x * low;
  }

  lemma ContributionOrder(idf: real, k1: real, more: real, less: real, light: real, heavy: real)
    requires idf > 0.0 && k1 >= 0.0 && more >= less > 0.0 && 0.0 <= light <= heavy
    ensures Contribution(idf, less, k1, heavy) <= Contribution(idf, more, k1, light)
  {
    SaturationOrder(more, less, light, heavy, k1);
    ScaleOrder(idf, Saturation(less, k1, heavy), Saturation(more, k1, light));
  }

  lemma DenserPremises(p: Params, ix: Index, dense: Doc, sparse: Doc, t: string)
    requires Proper(p) && Exact(ix) && sparse in ix.docs && t in sparse.terms
    requires Scorable(p, ix, dense) && |dense.terms| <= |sparse.terms|
    ensures Idf(p, ix, t) > 0.0 && Df(ix.df, t) > 0 && 0.0 <= Weight(p, ix, dense) <= Weight(p, ix, sparse)
  {
    IdfPositive(p, ix, sparse, t);
    LongerWeighsMore(p, ix, dense, sparse);
  }

  /** A term contributes no less to a document that has it more often in no more words. */
  lemma DenserDocumentsScoreHigher(p: Params, ix: Index, dense: Doc, sparse: Doc, t: string)
    requires Proper(p) && Exact(ix) && dense in ix.docs && sparse in ix.docs
    requires Scorable(p, ix, dense) && Scorable(p, ix, sparse)
    requires t in sparse.terms && dense.terms[t] >= sparse.terms[t] && |dense.terms| <= |sparse.terms|
    ensures TermScore(p, ix, dense, t) >= TermScore(p, ix, sparse, t)
  {
    DenserPremises(p, ix, dense, sparse, t);
    ContributionOrder(Idf(p, ix, t), p.k1, dense.terms[t] as real, sparse.terms[t] as real, Weight(p, ix, dense),
                      Weight(p, ix, sparse));
  }
}
