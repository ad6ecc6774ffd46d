/** Recall@k and mean reciprocal rank of a search
    (python/app/infrastructure/runbook_search.py). */
module SearchEvaluation {
  import opened Collections
  import opened StableSort
  import B = Bm25
  import R = RunbookSearch
  import S = RunbookStore

  /** A query and the ids that should be found. */
  datatype Query = Query(text: string, relevant: set<string>)

  /** The ids a search returns for a text and a number of results, best first. */
  type SearchFn = (string, nat) -> seq<string>

  function Members(ids: seq<string>): set<string>
  {
    set id | id in ids
  }

  /** The share of the relevant ids that was retrieved. */
  function Recall(retrieved: seq<string>, relevant: set<string>): real
    requires relevant != {}
  {
    |Members(retrieved) * relevant| as real / |relevant| as real
  }

  /** One over the rank of the first relevant id, 0 without any. */
  function ReciprocalRank(retrieved: seq<string>, relevant: set<string>): real
  {
    if retrieved == [] then 0.0
    else
      var n := |retrieved| - 1;
      var before := ReciprocalRank(retrieved[..n], relevant);
      if before == 0.0 && retrieved[n] in relevant then 1.0 / (n + 1) as real else before
  }

  type Measure = Query -> real

  function RecallOf(search: SearchFn, k: nat): Measure
  {
    (q: Query) => if q.relevant == {} then 0.0 else Recall(search(q.text, k), q.relevant)
  }

  function RankOf(search: SearchFn): Measure
  {
    (q: Query) => ReciprocalRank(search(q.text, 10), q.relevant)
  }

  /** The measure of every query that has relevant ids; the others are skipped. */
  function Measured<D>(queries: seq<Query>, measure: Query -> D): seq<D>
  {
    if queries == [] then []
    else
      var q := queries[|queries| - 1];
      Measured(queries[..|queries| - 1], measure) + (if q.relevant == {} then [] else [measure(q)])
  }

  function Average(xs: seq<real>): real
  {
    if xs == [] then 0.0 else B.Sum(xs) / |xs| as real
  }

  /** What the evaluators report of one query. */
  datatype RecallDetail = RecallDetail(query: string, recall: real, hits: set<string>, retrieved: set<string>)

  datatype RankDetail = RankDetail(query: string, rr: real)

  function RecallDetailOf(search: SearchFn, k: nat): Query -> RecallDetail
  {
    (q: Query) =>
      var retrieved := Members(search(q.text, k));
      RecallDetail(q.text, RecallOf(search, k)(q), retrieved * q.relevant, retrieved)
  }

  function RankDetailOf(search: SearchFn): Query -> RankDetail
  {
    (q: Query) => RankDetail(q.text, RankOf(search)(q))
  }

  // ---------- The evaluation loops ----------

  method EvaluateRecallAtK(search: SearchFn, queries: seq<Query>, k: nat)
      returns (recall: real, details: seq<RecallDetail>)
    ensures recall == Average(Measured(queries, RecallOf(search, k)))
    ensures details == Measured(queries, RecallDetailOf(search, k))
  {
    var recalls, total := [], 0.0;
    details := [];
    for i := 0 to |queries|
      invariant recalls == Measured(queries[..i], RecallOf(search, k)) && total == B.Sum(recalls)
      invariant details == Measured(queries[..i], RecallDetailOf(search, k))
    {
      assert queries[..i + 1][..i] == queries[..i];
      var q := queries[i];
      if q.relevant != {} {
        var retrieved := Members(search(q.text, k));
        var hits := retrieved * q.relevant;
        var r := |hits| as real / |q.relevant| as real;
        SumAppend(recalls, r);
        recalls, total := recalls + [r], total + r;
        details := details + [RecallDetail(q.text, r, hits, retrieved)];
      }
    }
    assert queries[..|queries|] == queries;
    recall := if recalls == [] then 0.0 else total / |recalls| as real;
  }

  /** Walks the results until the first relevant one. */
  method RankFirst(retrieved: seq<string>, relevant: set<string>) returns (rr: real)
    ensures rr == ReciprocalRank(retrieved, relevant)
  {
    rr := 0.0;
    var i := 0;
    while i < |retrieved|
      invariant i <= |retrieved| && rr == ReciprocalRank(retrieved[..i], relevant) == 0.0
    {
      assert retrieved[..i + 1][..i] == retrieved[..i];
      if retrieved[i] in relevant {
        rr := 1.0 / (i + 1) as real;
        FirstIsFinal(retrieved, i + 1, relevant);
        return;
      }
      i := i + 1;
    }
    assert retrieved[..|retrieved|] == retrieved;
  }

  /** Results after the first relevant one do not matter. */
  lemma {:induction false} FirstIsFinal(retrieved: seq<string>, i: nat, relevant: set<string>)
    requires i <= |retrieved| && ReciprocalRank(retrieved[..i], relevant) != 0.0
    ensures ReciprocalRank(retrieved, relevant) == ReciprocalRank(retrieved[..i], relevant)
  {
    var n := |retrieved| - 1;
    if i == |retrieved| {
      assert retrieved[..i] == retrieved;
    } else {
      assert retrieved[..n][..i] == retrieved[..i];
      FirstIsFinal(retrieved[..n], i, relevant);
    }
  }

  method EvaluateMrr(search: SearchFn, queries: seq<Query>) returns (mrr: real, details: seq<RankDetail>)
    ensures mrr == Average(Measured(queries, RankOf(search)))
    ensures details == Measured(queries, RankDetailOf(search))
  {
    var rrs, total := [], 0.0;
    details := [];
    for i := 0 to |queries|
      invariant rrs == Measured(queries[..i], RankOf(search)) && total == B.Sum(rrs)
      invariant details == Measured(queries[..i], RankDetailOf(search))
    {
      assert queries[..i + 1][..i] == queries[..i];
      var q := queries[i];
      if q.relevant != {} {
        var rr := RankFirst(search(q.text, 10), q.relevant);
        SumAppend(rrs, rr);
        rrs, total := rrs + [rr], total + rr;
        details := details + [RankDetail(q.text, rr)];
      }
    }
    assert queries[..|queries|] == queries;
    mrr := if rrs == [] then 0.0 else total / |rrs| as real;
  }

  // ---------- One query ----------

  lemma SubsetSmaller(a: set<string>, b: set<string>)
    requires a <= b
    ensures |a| <= |b|
    ensures |a| == |b| ==> a == b
  {
    assert b == a + (b - a);
  }

  lemma ShareInUnit(part: nat, whole: nat)
    requires part <= whole && whole > 0
    ensures 0.0 <= part as real / whole as real <= 1.0
    ensures part as real / whole as real == 1.0 <==> part == whole
    ensures part as real / whole as real > 0.0 <==> part > 0
  {
    B.QuotientAtMost(part as real, whole as real, 1.0);
    var q := part as real / whole as real;
    assert q * whole as real == part as real;
    if q == 1.0 {
      assert whole as real == part as real;
    }
    if part == whole {
      assert q == whole as real / whole as real == 1.0;
    }
    if part > 0 {
      B.QuotientPositive(part as real, whole as real);
    }
  }

  /** Recall is a share: 1 exactly when every relevant id was retrieved, positive exactly
      when some was. */
  lemma RecallMeaning(retrieved: seq<string>, relevant: set<string>)
    requires relevant != {}
    ensures Recall(retrieved, relevant) * |relevant| as real == |(set id | id in retrieved && id in relevant)| as real
    ensures 0.0 <= Recall(retrieved, relevant) <= 1.0
    ensures Recall(retrieved, relevant) == 1.0 <==> forall id :: id in relevant ==> id in retrieved
    ensures Recall(retrieved, relevant) > 0.0 <==> exists id :: id in relevant && id in retrieved
  {
    var hits := Members(retrieved) * relevant;
    assert hits == set id | id in retrieved && id in relevant;
    SubsetSmaller(hits, relevant);
    ShareInUnit(|hits|, |relevant|);
    if id :| id in relevant && id in retrieved {
      assert id in hits;
    }
    if |hits| == |relevant| {
      assert forall id :: id in relevant ==> id in hits;
    }
    if forall id :: id in relevant ==> id in retrieved {
      assert hits == relevant;
    }
    assert |hits| > 0 ==> exists id :: id in hits;
  }

  lemma ShareGrows(part: nat, more: nat, whole: nat)
    requires part <= more && whole > 0
    ensures part as real / whole as real <= more as real / whole as real
  {
    var q := more as real / whole as real;
    assert q * whole as real == more as real;
    B.QuotientAtMost(part as real, whole as real, q);
  }

  lemma RecallGrows(few: seq<string>, many: seq<string>, relevant: set<string>)
    requires relevant != {} && few <= many
    ensures Recall(few, relevant) <= Recall(many, relevant)
  {
    var a, b := Members(few) * relevant, Members(many) * relevant;
    assert a <= b by {
      forall id | id in a ensures id in b
      {
        assert id in many[..|few|];
      }
    }
    SubsetSmaller(a, b);
    ShareGrows(|a|, |b|, |relevant|);
  }

  ghost predicate FirstAt(retrieved: seq<string>, relevant: set<string>, i: nat)
    requires i < |retrieved|
  {
    retrieved[i] in relevant && forall j :: 0 <= j < i ==> retrieved[j] !in relevant
  }

  lemma InverseInUnit(n: nat)
    requires n > 0
    ensures 0.0 < 1.0 / n as real <= 1.0
  {
    B.QuotientPositive(1.0, n as real);
    B.QuotientAtMost(1.0, n as real, 1.0);
  }

  /** The reciprocal rank is 1 / n exactly when the n-th result is the first relevant
      one, and 0 exactly when none is relevant. */
  lemma {:induction false} ReciprocalRankMeaning(retrieved: seq<string>, relevant: set<string>)
    ensures forall i :: 0 <= i < |retrieved| && FirstAt(retrieved, relevant, i) ==>
            ReciprocalRank(retrieved, relevant) == 1.0 / (i + 1) as real
    ensures ReciprocalRank(retrieved, relevant) == 0.0 <==> forall id :: id in retrieved ==> id !in relevant
    ensures 0.0 <= ReciprocalRank(retrieved, relevant) <= 1.0
  {
    if retrieved != [] {
      var n := |retrieved| - 1;
      var before := retrieved[..n];
      ReciprocalRankMeaning(before, relevant);
      InverseInUnit(n + 1);
      assert retrieved == before + [retrieved[n]];
      forall i | 0 <= i < |retrieved| && FirstAt(retrieved, relevant, i)
        ensures ReciprocalRank(retrieved, relevant) == 1.0 / (i + 1) as real
      {
        if i < n {
          assert before[i] == retrieved[i] && FirstAt(before, relevant, i);
          InverseInUnit(i + 1);
        } else {
          assert forall id :: id in before ==> exists j :: 0 <= j < n && retrieved[j] == id;
        }
      }
    }
  }

  // ---------- All queries ----------

  lemma {:induction false} AverageInUnit(xs: seq<real>)
    requires forall i :: 0 <= i < |xs| ==> 0.0 <= xs[i] <= 1.0
    ensures 0.0 <= B.Sum(xs) <= |xs| as real
    ensures 0.0 <= Average(xs) <= 1.0
  {
    if xs != [] {
      AverageInUnit(xs[..|xs| - 1]);
      B.QuotientAtMost(B.Sum(xs), |xs| as real, 1.0);
      if B.Sum(xs) > 0.0 {
        B.QuotientPositive(B.Sum(xs), |xs| as real);
      }
    }
  }

  /** The average is what, taken once per measurement, gives the sum; of equal measurements it
      is their value, and of none it is 0. */
  lemma {:induction false} AverageMeans(xs: seq<real>, x: real)
    ensures xs != [] ==> Average(xs) * |xs| as real == B.Sum(xs)
    ensures xs == [] ==> Average(xs) == 0.0
    ensures xs != [] && (forall i :: 0 <= i < |xs| ==> xs[i] == x) ==> Average(xs) == x
  {
    if forall i :: 0 <= i < |xs| ==> xs[i] == x {
      SumOfEqual(xs, x);
      if xs != [] {
        assert Average(xs) * |xs| as real == x * |xs| as real;
        CancelFactor(Average(xs), x, |xs| as real);
      }
    }
  }

  lemma CancelFactor(a: real, b: real, n: real)
    requires n > 0.0 && a * n == b * n
    ensures a == b
  {
    assert (a - b) * n == 0.0;
  }

  lemma {:induction false} SumOfEqual(xs: seq<real>, x: real)
    requires forall i :: 0 <= i < |xs| ==> xs[i] == x
    ensures B.Sum(xs) == x * |xs| as real
  {
    if xs != [] {
      SumOfEqual(xs[..|xs| - 1], x);
    }
  }

  /** Queries without relevant ids do not count; every other one counts once, in order. */
  lemma {:induction false} MeasuredMeans<D>(queries: seq<Query>, measure: Query -> D)
    ensures |Measured(queries, measure)| == |Filter(queries, (q: Query) => q.relevant != {})|
    ensures forall i :: 0 <= i < |Measured(queries, measure)| ==>
              Measured(queries, measure)[i] == measure(Filter(queries, (q: Query) => q.relevant != {})[i])
  {
    if queries != [] {
      MeasuredMeans(queries[..|queries| - 1], measure);
    }
  }

  ghost predicate InUnit(queries: seq<Query>, measure: Measure)
  {
    forall i :: 0 <= i < |queries| && queries[i].relevant != {} ==> 0.0 <= measure(queries[i]) <= 1.0
  }

  lemma {:induction false} MeasuredInUnit(queries: seq<Query>, measure: Measure)
    requires InUnit(queries, measure)
    ensures forall i :: 0 <= i < |Measured(queries, measure)| ==> 0.0 <= Measured(queries, measure)[i] <= 1.0
  {
    if queries != [] {
      MeasuredInUnit(queries[..|queries| - 1], measure);
    }
  }

  /** Mean recall and mean reciprocal rank stay in [0, 1] for any search whatever. */
  lemma {:induction false} MeansInUnit(search: SearchFn, queries: seq<Query>, k: nat)
    ensures 0.0 <= Average(Measured(queries, RecallOf(search, k))) <= 1.0
    ensures 0.0 <= Average(Measured(queries, RankOf(search))) <= 1.0
  {
    forall i | 0 <= i < |queries| && queries[i].relevant != {}
      ensures 0.0 <= RecallOf(search, k)(queries[i]) <= 1.0 && 0.0 <= RankOf(search)(queries[i]) <= 1.0
    {
      RecallMeaning(search(queries[i].text, k), queries[i].relevant);
      ReciprocalRankMeaning(search(queries[i].text, 10), queries[i].relevant);
    }
    MeasuredInUnit(queries, RecallOf(search, k));
    MeasuredInUnit(queries, RankOf(search));
    AverageInUnit(Measured(queries, RecallOf(search, k)));
    AverageInUnit(Measured(queries, RankOf(search)));
  }

  lemma {:induction false} SumGrows(queries: seq<Query>, low: Measure, high: Measure)
    requires forall i :: 0 <= i < |queries| && queries[i].relevant != {} ==> low(queries[i]) <= high(queries[i])
    ensures |Measured(queries, low)| == |Measured(queries, high)|
    ensures B.Sum(Measured(queries, low)) <= B.Sum(Measured(queries, high))
  {
    if queries != [] {
      var n := |queries| - 1;
      SumGrows(queries[..n], low, high);
      MeasuredSum(queries, low);
      MeasuredSum(queries, high);
    }
  }

  lemma {:induction false} SumAppend(xs: seq<real>, x: real)
    ensures B.Sum(xs + [x]) == B.Sum(xs) + x
  {
    assert (xs + [x])[..|xs|] == xs;
  }

  lemma {:induction false} MeasuredSum(queries: seq<Query>, measure: Measure)
    requires queries != []
    ensures var q := queries[|queries| - 1];
            B.Sum(Measured(queries, measure)) ==
            B.Sum(Measured(queries[..|queries| - 1], measure)) + (if q.relevant == {} then 0.0 else measure(q))
  {
    var q, before := queries[|queries| - 1], Measured(queries[..|queries| - 1], measure);
    if q.relevant == {} {
      assert Measured(queries, measure) == before;
    } else {
      SumAppend(before, measure(q));
    }
  }

  lemma QuotientGrows(a: real, b: real, n: real)
    requires a <= b && n > 0.0
    ensures a / n <= b / n
  {
    assert (b / n) * n == b;
    B.QuotientAtMost(a, n, b / n);
  }

  /** Mean recall never falls when more results are asked for, provided the search only
      adds results at the end. */
  lemma {:induction false} MeanRecallGrows(search: SearchFn, queries: seq<Query>, k: nat, more: nat)
    requires forall i :: 0 <= i < |queries| ==> search(queries[i].text, k) <= search(queries[i].text, more)
    ensures Average(Measured(queries, RecallOf(search, k))) <= Average(Measured(queries, RecallOf(search, more)))
  {
    forall i | 0 <= i < |queries| && queries[i].relevant != {}
      ensures RecallOf(search, k)(queries[i]) <= RecallOf(search, more)(queries[i])
    {
      RecallGrows(search(queries[i].text, k), search(queries[i].text, more), queries[i].relevant);
    }
    SumGrows(queries, RecallOf(search, k), RecallOf(search, more));
    if Measured(queries, RecallOf(search, k)) != [] {
      QuotientGrows(B.Sum(Measured(queries, RecallOf(search, k))), B.Sum(Measured(queries, RecallOf(search, more))),
                    |Measured(queries, RecallOf(search, k))| as real);
    }
  }

  /** The ids of ranked hits. */
  function Ids(hits: seq<R.Hit>): seq<string>
  {
    seq(|hits|, i requires 0 <= i < |hits| => hits[i].id)
  }

  /** BM25 search at one clock reading, as the evaluators see it. */
  function Bm25Search(p: B.Params, ix: B.Index, s: S.Store, now: int): SearchFn
  {
    (text: string, k: nat) => Ids(R.Best(R.Hits(R.Scorer(p, ix, B.Tokenize(text)), ix.docs, s, now), k))
  }

  /** It is what the search object returns: on a store whose versions are filed under their
      own ids, the results carry these ids, in this order. */
  lemma {:induction false} ObjectSearchAgrees(
    hash: S.Hash, latest: int, p: B.Params, ix: B.Index, s: S.Store, now: int, query: string, k: nat,
    results: seq<R.Result>)
    requires S.Lifecycle(hash, s, latest)
    requires R.Answers(results, R.Best(R.Hits(R.Scorer(p, ix, B.Tokenize(query)), ix.docs, s, now), k), s, now)
    ensures |results| == |Bm25Search(p, ix, s, now)(query, k)|
    ensures forall i :: 0 <= i < |results| ==> results[i].runbook.content.id == Bm25Search(p, ix, s, now)(query, k)[i]
  {
    var hits := R.Best(R.Hits(R.Scorer(p, ix, B.Tokenize(query)), ix.docs, s, now), k);
    R.ResultIds(hash, latest, results, hits, s, now);
  }

  lemma {:induction false} Bm25RecallGrows(p: B.Params, ix: B.Index, s: S.Store, now: int, queries: seq<Query>, k: nat,
                                           more: nat)
    requires k <= more
    ensures Average(Measured(queries, RecallOf(Bm25Search(p, ix, s, now), k))) <=
            Average(Measured(queries, RecallOf(Bm25Search(p, ix, s, now), more)))
  {
    var search := Bm25Search(p, ix, s, now);
    forall i | 0 <= i < |queries| ensures search(queries[i].text, k) <= search(queries[i].text, more)
    {
      R.BestGrows(R.Hits(R.Scorer(p, ix, B.Tokenize(queries[i].text)), ix.docs, s, now), k, more);
    }
    MeanRecallGrows(search, queries, k, more);
  }

  lemma {:induction false} SumsBothPositive(queries: seq<Query>, a: Measure, b: Measure)
    requires InUnit(queries, a) && InUnit(queries, b)
    requires forall i :: 0 <= i < |queries| && queries[i].relevant != {} ==>
             (a(queries[i]) > 0.0 <==> b(queries[i]) > 0.0)
    ensures |Measured(queries, a)| == |Measured(queries, b)|
    ensures 0.0 <= B.Sum(Measured(queries, a)) && 0.0 <= B.Sum(Measured(queries, b))
    ensures B.Sum(Measured(queries, a)) > 0.0 <==> B.Sum(Measured(queries, b)) > 0.0
  {
    if queries != [] {
      SumsBothPositive(queries[..|queries| - 1], a, b);
      MeasuredSum(queries, a);
      MeasuredSum(queries, b);
    }
  }

  /** The two measures agree on failure: the mean reciprocal rank is positive exactly when
      the recall at ten is. */
  lemma {:induction false} RankAndRecallAgree(search: SearchFn, queries: seq<Query>)
    ensures Average(Measured(queries, RankOf(search))) > 0.0 <==> Average(Measured(queries, RecallOf(search, 10))) > 0.0
  {
    var a, b := RankOf(search), RecallOf(search, 10);
    forall i | 0 <= i < |queries| && queries[i].relevant != {}
      ensures 0.0 <= a(queries[i]) <= 1.0 && 0.0 <= b(queries[i]) <= 1.0 &&
              (a(queries[i]) > 0.0 <==> b(queries[i]) > 0.0)
    {
      RecallMeaning(search(queries[i].text, 10), queries[i].relevant);
      ReciprocalRankMeaning(search(queries[i].text, 10), queries[i].relevant);
    }
    SumsBothPositive(queries, a, b);
    PositiveAverage(Measured(queries, a));
    PositiveAverage(Measured(queries, b));
  }

  lemma {:induction false} PositiveAverage(xs: seq<real>)
    requires B.Sum(xs) >= 0.0
    ensures Average(xs) > 0.0 <==> B.Sum(xs) > 0.0
  {
    if B.Sum(xs) > 0.0 && xs != [] {
      B.QuotientPositive(B.Sum(xs), |xs| as real);
    }
  }
}
