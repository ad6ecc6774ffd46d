/** Ranked search over the BM25 index: which runbooks are found, and which of them are
    returned (python/app/infrastructure/runbook_search.py). */
module RunbookSearch {
  import opened Collections
  import opened StableSort
  import opened Bm25
  import S = RunbookStore
  import O = RunbookObjects

  datatype Hit = Hit(id: string, score: real)

  predicate AllScorable(p: Params, ix: Index, docs: seq<Doc>)
  {
    forall i | 0 <= i < |docs| :: Scorable(p, ix, docs[i])
  }

  /** The score of each document; documents of the index are always scorable. */
  function Scorer(p: Params, ix: Index, query: seq<string>): Doc -> real
  {
    (d: Doc) => if Scorable(p, ix, d) then Score(p, ix, d, query) else 0.0
  }

  /** The documents that score and whose runbook is active at the time of the query. */
  function Hits(scorer: Doc -> real, docs: seq<Doc>, s: S.Store, now: int): seq<Hit>
  {
    if docs == [] then []
    else
      var d := docs[|docs| - 1];
      Hits(scorer, docs[..|docs| - 1], s, now) +
      (if scorer(d) > 0.0 && S.GetActive(s, d.id, now).Some? then [Hit(d.id, scorer(d))] else [])
  }

  function ByScore(): Hit -> real
  {
    (h: Hit) => -h.score
  }

  function Best(hits: seq<Hit>, k: nat): seq<Hit>
  {
    var ranked := Sort(hits, ByScore());
    if k < |ranked| then ranked[..k] else ranked
  }

  // ---------- What is found ----------

  lemma IndexScorable(p: Params, ix: Index)
    requires Proper(p) && Exact(ix)
    ensures AllScorable(p, ix, ix.docs)
  {
    forall i | 0 <= i < |ix.docs| ensures Scorable(p, ix, ix.docs[i])
    {
      DocScorable(p, ix, ix.docs[i]);
    }
  }

  lemma {:induction false} HitsNone(p: Params, ix: Index, docs: seq<Doc>, s: S.Store, now: int)
    ensures Hits(Scorer(p, ix, []), docs, s, now) == []
  {
    if docs != [] {
      HitsNone(p, ix, docs[..|docs| - 1], s, now);
    }
  }

  /** The i-th document gives the hit h. */
  ghost predicate Gives(scorer: Doc -> real, docs: seq<Doc>, s: S.Store, now: int, h: Hit, i: nat)
    requires i < |docs|
  {
    docs[i].id == h.id && h.score == scorer(docs[i]) > 0.0 && S.GetActive(s, h.id, now).Some?
  }

  lemma {:induction false} HitGiven(scorer: Doc -> real, docs: seq<Doc>, s: S.Store, now: int, h: Hit) returns (i: nat)
    requires h in Hits(scorer, docs, s, now)
    ensures i < |docs| && Gives(scorer, docs, s, now, h, i)
  {
    var n := |docs| - 1;
    if h in Hits(scorer, docs[..n], s, now) {
      i := HitGiven(scorer, docs[..n], s, now, h);
    } else {
      i := n;
    }
  }

  lemma {:induction false} GivenHit(scorer: Doc -> real, docs: seq<Doc>, s: S.Store, now: int, h: Hit, i: nat)
    requires i < |docs| && Gives(scorer, docs, s, now, h, i)
    ensures h in Hits(scorer, docs, s, now)
  {
    var n := |docs| - 1;
    if i < n {
      assert docs[..n][i] == docs[i];
      GivenHit(scorer, docs[..n], s, now, h, i);
    }
  }

  lemma ScorerPositive(p: Params, ix: Index, d: Doc, query: seq<string>)
    requires Proper(p) && Exact(ix) && d in ix.docs
    ensures Scorer(p, ix, query)(d) > 0.0 <==> Shares(d, query)
  {
    DocScorable(p, ix, d);
    ScoreBounds(p, ix, d, query);
  }

  ghost predicate IsHit(hits: seq<Hit>, id: string)
  {
    exists k :: 0 <= k < |hits| && hits[k].id == id
  }

  ghost predicate IsShared(docs: seq<Doc>, query: seq<string>, id: string)
  {
    exists i :: 0 <= i < |docs| && docs[i].id == id && Shares(docs[i], query)
  }

  /** The hits are exactly the documents that share a token with the query and are
      active. */
  lemma {:induction false} FoundIffSharing(p: Params, ix: Index, s: S.Store, now: int, query: seq<string>, id: string)
    requires Proper(p) && Exact(ix)
    ensures IsHit(Hits(Scorer(p, ix, query), ix.docs, s, now), id) <==>
            IsShared(ix.docs, query, id) && S.GetActive(s, id, now).Some?
  {
    var scorer := Scorer(p, ix, query);
    var hits := Hits(scorer, ix.docs, s, now);
    if IsHit(hits, id) {
      var k :| 0 <= k < |hits| && hits[k].id == id;
      var i := HitGiven(scorer, ix.docs, s, now, hits[k]);
      ScorerPositive(p, ix, ix.docs[i], query);
    }
    if IsShared(ix.docs, query, id) && S.GetActive(s, id, now).Some? {
      var i :| 0 <= i < |ix.docs| && ix.docs[i].id == id && Shares(ix.docs[i], query);
      ScorerPositive(p, ix, ix.docs[i], query);
      var h := Hit(id, scorer(ix.docs[i]));
      GivenHit(scorer, ix.docs, s, now, h, i);
      var k :| 0 <= k < |hits| && hits[k] == h;
    }
  }

  ghost predicate Mentions(v: S.Version, query: seq<string>)
  {
    exists i :: 0 <= i < |query| && query[i] in Tokenize(DocText(v))
  }

  lemma MentionsShares(v: S.Version, query: seq<string>)
    ensures Mentions(v, query) <==> Shares(DocOf(v), query)
  {
    var tokens := Tokenize(DocText(v));
    assert forall t :: t in tokens <==> t in multiset(tokens);
    if Shares(DocOf(v), query) {
      var i :| 0 <= i < |query| && query[i] in DocOf(v).terms;
      assert query[i] in tokens;
    }
    if Mentions(v, query) {
      var i :| 0 <= i < |query| && query[i] in tokens;
      assert query[i] in DocOf(v).terms;
    }
  }

  ghost predicate Mentioned(vs: seq<S.Version>, query: seq<string>, id: string)
  {
    exists j :: 0 <= j < |vs| && vs[j].content.id == id && Mentions(vs[j], query)
  }

  lemma IndexedMentions(vs: seq<S.Version>, query: seq<string>, id: string)
    ensures IsShared(Docs(vs), query, id) <==> Mentioned(vs, query, id)
  {
    var docs := Docs(vs);
    if i :| 0 <= i < |docs| && docs[i].id == id && Shares(docs[i], query) {
      var j := FlatMapMember(vs, Indexer(), docs[i]);
      IndexedNonempty(vs[j]);
      MentionsShares(vs[j], query);
    }
    if j :| 0 <= j < |vs| && vs[j].content.id == id && Mentions(vs[j], query) {
      MentionsShares(vs[j], query);
      MentionedIndexed(vs[j], query);
      FlatMapKeeps(vs, Indexer(), j, DocOf(vs[j]));
      var i :| 0 <= i < |docs| && docs[i] == DocOf(vs[j]);
      assert docs[i].id == id;
    }
  }

  lemma MentionedIndexed(v: S.Version, query: seq<string>)
    requires Mentions(v, query)
    ensures DocOf(v) in Indexer()(v)
  {
    var i :| 0 <= i < |query| && query[i] in Tokenize(DocText(v));
  }

  /** Read from the store: an index built when vs were active finds a runbook exactly when
      its version among them mentions a token of the query and some version of it is
      active at query time. */
  lemma {:induction false} FreshIndexFinds(p: Params, ix: Index, vs: seq<S.Version>, s: S.Store, now: int,
                                           query: seq<string>, id: string)
    requires Proper(p) && Exact(ix) && ix.docs == Docs(vs)
    ensures IsHit(Hits(Scorer(p, ix, query), ix.docs, s, now), id) <==>
            Mentioned(vs, query, id) && S.GetActive(s, id, now).Some?
  {
    FoundIffSharing(p, ix, s, now, query, id);
    IndexedMentions(vs, query, id);
  }

  // ---------- What is returned ----------

  function Scoring(score: real): Hit -> bool
  {
    (h: Hit) => h.score == score
  }

  /** The k hits of highest score, best first: nothing left out scores higher than anything
      returned, and of equal scores the hits indexed first are returned, in index order. */
  ghost predicate TopScores(hits: seq<Hit>, k: nat, best: seq<Hit>)
  {
    && |best| == (if k < |hits| then k else |hits|)
    && (forall i, j :: 0 <= i < j < |best| ==> best[i].score >= best[j].score)
    && (forall h, b | LeftOut(hits, best, h) && b in best :: h.score <= b.score)
    && (forall h :: multiset(best)[h] <= multiset(hits)[h])
    && (forall score :: Filter(best, Scoring(score)) <= Filter(hits, Scoring(score)))
  }

  lemma FirstOfScore(hits: seq<Hit>, best: seq<Hit>, score: real)
    requires KeepsFirst(hits, best, ByScore(), -score)
    ensures Filter(best, Scoring(score)) <= Filter(hits, Scoring(score))
  {
    FilterSame(best, WithKey(ByScore(), -score), Scoring(score));
    FilterSame(hits, WithKey(ByScore(), -score), Scoring(score));
  }

  lemma {:induction false} BestAreBest(hits: seq<Hit>, k: nat)
    ensures TopScores(hits, k, Best(hits, k))
  {
    var best := Best(hits, k);
    SortFacts(hits, ByScore());
    PrefixKeepsLeast(hits, best, ByScore());
    forall i, j | 0 <= i < j < |best| ensures best[i].score >= best[j].score
    {
      assert ByScore()(best[i]) <= ByScore()(best[j]);
    }
    forall h, b | LeftOut(hits, best, h) && b in best ensures h.score <= b.score
    {
      assert ByScore()(b) <= ByScore()(h);
    }
    forall score ensures Filter(best, Scoring(score)) <= Filter(hits, Scoring(score))
    {
      FirstOfScore(hits, best, score);
    }
  }

  /** Asking for more only adds results at the end. */
  lemma BestGrows(hits: seq<Hit>, k: nat, more: nat)
    requires k <= more
    ensures Best(hits, k) <= Best(hits, more)
  {}

  // ---------- One entry per runbook ----------

  function VersionId(): S.Version -> string
  {
    (v: S.Version) => v.content.id
  }

  function DocId(): Doc -> string
  {
    (d: Doc) => d.id
  }

  function HitId(): Hit -> string
  {
    (h: Hit) => h.id
  }

  lemma ActiveHasId(hash: S.Hash, s: S.Store, latest: int, id: string, now: int)
    requires S.Lifecycle(hash, s, latest) && S.GetActive(s, id, now).Some?
    ensures S.GetActive(s, id, now).value.content.id == id
  {
    assert S.Keyed(hash, s.versions[id], id);
  }

  lemma DistinctAppend<T, K>(xs: seq<T>, x: T, key: T -> K)
    requires DistinctKeys(xs, key) && forall i :: 0 <= i < |xs| ==> key(xs[i]) != key(x)
    ensures DistinctKeys(xs + [x], key)
  {}

  lemma {:induction false} ActiveIds(hash: S.Hash, s: S.Store, latest: int, ids: seq<string>, now: int)
    requires S.Lifecycle(hash, s, latest)
    requires forall i, j :: 0 <= i < j < |ids| ==> ids[i] != ids[j]
    ensures forall v :: v in S.ActiveIn(s, ids, now) ==> v.content.id in ids
    ensures DistinctKeys(S.ActiveIn(s, ids, now), VersionId())
  {
    if ids != [] {
      var n := |ids| - 1;
      var before, v := S.ActiveIn(s, ids[..n], now), S.GetActive(s, ids[n], now);
      ActiveIds(hash, s, latest, ids[..n], now);
      assert ids == ids[..n] + [ids[n]] && ids[n] !in ids[..n];
      if v.Some? {
        ActiveHasId(hash, s, latest, ids[n], now);
        forall i | 0 <= i < |before| ensures before[i].content.id != ids[n]
        {
          assert before[i] in before;
        }
        DistinctAppend(before, v.value, VersionId());
      }
    }
  }

  ghost predicate OneDocEach(vs: seq<S.Version>, index: S.Version -> seq<Doc>)
  {
    forall i :: 0 <= i < |vs| ==> |index(vs[i])| <= 1 && forall d :: d in index(vs[i]) ==> d.id == vs[i].content.id
  }

  lemma {:induction false} DocIds(vs: seq<S.Version>, index: S.Version -> seq<Doc>)
    requires DistinctKeys(vs, VersionId()) && OneDocEach(vs, index)
    ensures DistinctKeys(FlatMap(vs, index), DocId())
  {
    if vs != [] {
      var n := |vs| - 1;
      var before, more := FlatMap(vs[..n], index), index(vs[n]);
      DocIds(vs[..n], index);
      forall i | 0 <= i < |before| ensures before[i].id != vs[n].content.id
      {
        var j := FlatMapMember(vs[..n], index, before[i]);
        assert vs[..n][j] == vs[j];
        assert VersionId()(vs[j]) != VersionId()(vs[n]);
      }
      assert |more| == 1 ==> more[0] in more;
    }
  }

  /** The store files every version under its own id, so an index holds one document per
      runbook id, whatever was done to the store before. */
  lemma {:induction false} IndexedOnce(hash: S.Hash, ops: seq<S.Timed>, latest: int, now: int)
    requires S.ClockRuns(ops) && S.AddsBy(ops, latest)
    ensures DistinctKeys(Docs(S.ListActive(S.Run(hash, ops), now)), DocId())
  {
    var s := S.Run(hash, ops);
    S.RunKeepsLifecycle(hash, ops, latest);
    ActiveIds(hash, s, latest, s.ids, now);
    var vs := S.ListActive(s, now);
    forall i | 0 <= i < |vs|
      ensures |Indexer()(vs[i])| <= 1 && forall d :: d in Indexer()(vs[i]) ==> d.id == vs[i].content.id
    {
      IndexedNonempty(vs[i]);
    }
    DocIds(vs, Indexer());
  }

  lemma {:induction false} HitIds(scorer: Doc -> real, docs: seq<Doc>, s: S.Store, now: int)
    requires DistinctKeys(docs, DocId())
    ensures DistinctKeys(Hits(scorer, docs, s, now), HitId())
  {
    if docs != [] {
      var n := |docs| - 1;
      var before := Hits(scorer, docs[..n], s, now);
      HitIds(scorer, docs[..n], s, now);
      forall i | 0 <= i < |before| ensures before[i].id != docs[n].id
      {
        var j := HitGiven(scorer, docs[..n], s, now, before[i]);
        assert DocId()(docs[j]) != DocId()(docs[n]);
      }
    }
  }

  // ---------- The search object ----------

  datatype Result = Result(runbook: O.Runbook, score: real, rank: nat)

  /** The result shows the active version of a hit, its score and its rank. */
  ghost predicate Answer(r: Result, hit: Hit, rank: nat, s: S.Store, now: int)
    reads r.runbook
  {
    r.rank == rank && r.score == hit.score && S.GetActive(s, hit.id, now) == Some(r.runbook.Snapshot())
  }

  /** One result per hit, ranked 1..n. */
  ghost predicate Answers(results: seq<Result>, hits: seq<Hit>, s: S.Store, now: int)
    reads set i | 0 <= i < |results| :: results[i].runbook
  {
    |results| == |hits| && forall i :: 0 <= i < |results| ==> Answer(results[i], hits[i], i + 1, s, now)
  }

  /** Results carry the ids of their hits, since versions are filed under their own ids. */
  lemma ResultIds(hash: S.Hash, latest: int, results: seq<Result>, hits: seq<Hit>, s: S.Store, now: int)
    requires S.Lifecycle(hash, s, latest) && Answers(results, hits, s, now)
    ensures forall i :: 0 <= i < |results| ==> results[i].runbook.content.id == hits[i].id
  {
    forall i | 0 <= i < |results| ensures results[i].runbook.content.id == hits[i].id
    {
      assert Answer(results[i], hits[i], i + 1, s, now);
      ActiveHasId(hash, s, latest, hits[i].id, now);
    }
  }

  class BM25Search {
    const store: O.RunbookStore
    const params: Params
    var docs: seq<Doc>
    var df: map<string, nat>
    var docCount: nat
    var avgLength: real

    function View(): Index
      reads this
    {
      Index(docs, df, docCount, avgLength)
    }

    constructor (store: O.RunbookStore, params: Params, now: int)
      requires store.Valid()
      ensures this.store == store && this.params == params
      ensures Exact(View()) && View().docs == Docs(S.ListActive(store.view, now))
      ensures Proper(params) ==> AllScorable(params, View(), docs)
    {
      this.store, this.params := store, params;
      docs, df, docCount, avgLength := [], map[], 0, 0.0;
      new;
      RebuildIndex(now);
      if Proper(params) {
        IndexScorable(params, View());
      }
    }

    /** One more document for each of the terms. */
    static method CountTerms(df: map<string, nat>, terms: set<string>) returns (after: map<string, nat>)
      ensures forall t :: Df(after, t) == Df(df, t) + (if t in terms then 1 else 0)
    {
      after := df;
      var left := terms;
      while left != {}
        invariant left <= terms
        invariant forall t :: Df(after, t) == Df(df, t) + (if t in terms - left then 1 else 0)
        decreases |left|
      {
        var t :| t in left;
        after := after[t := (if t in after then after[t] else 0) + 1];
        left := left - {t};
      }
    }

    method IndexDoc(d: Doc)
      requires docCount == |docs| && CountsDocs(df, docs)
      modifies this
      ensures docs == old(docs) + [d] && avgLength == old(avgLength)
      ensures docCount == |docs| && CountsDocs(df, docs)
    {
      var counted := CountTerms(df, set t | t in d.terms);
      CountsOneMore(df, counted, docs, d);
      docs, docCount, df := docs + [d], docCount + 1, counted;
    }

    /** Indexes a runbook unless it has no token, and tells its length. */
    method IndexRunbook(r: O.Runbook) returns (length: nat)
      requires docCount == |docs| && CountsDocs(df, docs)
      modifies this
      ensures docs == old(docs) + Indexer()(r.Snapshot())
      ensures docCount == |docs| && CountsDocs(df, docs) && TotalLength(docs) == TotalLength(old(docs)) + length
    {
      var tokens := Tokenize(DocText(r.Snapshot()));
      length := |tokens|;
      if tokens != [] {
        var d := Doc(r.content.id, multiset(tokens));
        assert d == DocOf(r.Snapshot());
        IndexDoc(d);
        assert docs[..|docs| - 1] == old(docs);
      }
    }

    method IndexAll(active: seq<O.Runbook>, ghost vs: seq<S.Version>) returns (total: nat)
      requires O.Shows(active, vs) && docs == [] && docCount == 0 && CountsDocs(df, docs)
      modifies this
      ensures docs == Docs(vs) && docCount == |docs| && CountsDocs(df, docs) && total == TotalLength(docs)
    {
      total := 0;
      for i := 0 to |active|
        invariant docs == FlatMap(vs[..i], Indexer())
        invariant docCount == |docs| && CountsDocs(df, docs) && total == TotalLength(docs)
      {
        assert vs[..i + 1][..i] == vs[..i];
        assert active[i].Snapshot() == vs[i];
        var length := IndexRunbook(active[i]);
        total := total + length;
      }
      assert vs[..|vs|] == vs;
    }

    method RebuildIndex(now: int)
      requires store.Valid()
      modifies this
      ensures Exact(View()) && View().docs == Docs(S.ListActive(store.view, now))
    {
      docs, df, docCount := [], map[], 0;
      var active := store.ListActive(None, now);
      ghost var vs := S.ListActive(store.view, now);
      AnyService(vs);
      CountsNothing();
      var total := IndexAll(active, vs);
      DocsNonempty(vs);
      SetAverage(total);
    }

    method SetAverage(total: nat)
      requires docCount == |docs| && CountsDocs(df, docs) && total == TotalLength(docs)
      requires forall d | d in docs :: |d.terms| > 0
      modifies this`avgLength
      ensures Exact(View())
    {
      if docCount > 0 {
        avgLength := total as real / docCount as real;
      }
    }

    method ScoreOf(d: Doc, query: seq<string>) returns (score: real)
      requires Scorable(params, View(), d)
      ensures score == Score(params, View(), d, query)
    {
      score := 0.0;
      ghost var parts := TermScores(params, View(), d, query);
      for i := 0 to |query|
        invariant score == Sum(parts[..i])
      {
        assert parts[..i + 1][..i] == parts[..i];
        score := score + TermScore(params, View(), d, query[i]);
      }
      assert parts[..|query|] == parts;
    }

    method CollectHits(query: seq<string>, now: int) returns (hits: seq<Hit>)
      requires store.Valid() && AllScorable(params, View(), docs)
      ensures hits == Hits(Scorer(params, View(), query), docs, store.view, now)
    {
      hits := [];
      for i := 0 to |docs|
        invariant hits == Hits(Scorer(params, View(), query), docs[..i], store.view, now)
      {
        assert docs[..i + 1][..i] == docs[..i];
        var score := ScoreOf(docs[i], query);
        if score > 0.0 {
          var r := store.GetActive(docs[i].id, now);
          if r.Some? {
            hits := hits + [Hit(docs[i].id, score)];
          }
        }
      }
      assert docs[..|docs|] == docs;
    }

    /** Looks up the runbook of a hit again. */
    method ShowOne(hit: Hit, rank: nat, now: int) returns (result: Result)
      requires store.Valid() && S.GetActive(store.view, hit.id, now).Some?
      ensures Answer(result, hit, rank, store.view, now)
    {
      var r := store.GetActive(hit.id, now);
      result := Result(r.value, hit.score, rank);
    }

    /** Numbers the ranked hits from 1. */
    method Show(ranked: seq<Hit>, now: int) returns (results: seq<Result>)
      requires store.Valid() && forall i :: 0 <= i < |ranked| ==> S.GetActive(store.view, ranked[i].id, now).Some?
      ensures Answers(results, ranked, store.view, now)
    {
      results := [];
      for i := 0 to |ranked|
        invariant |results| == i && forall j :: 0 <= j < i ==> Answer(results[j], ranked[j], j + 1, store.view, now)
      {
        var result := ShowOne(ranked[i], i + 1, now);
        results := results + [result];
      }
    }

    /** The best topK hits, shown with the runbooks that are active now. */
    method Search(query: string, topK: nat, now: int) returns (results: seq<Result>, total: nat)
      requires store.Valid() && AllScorable(params, View(), docs)
      ensures var hits := Hits(Scorer(params, View(), Tokenize(query)), docs, store.view, now);
              && total == |hits| && Answers(results, Best(hits, topK), store.view, now)
              && TopScores(hits, topK, Best(hits, topK))
              && (forall i, j :: 0 <= i < j < |results| ==> results[i].score >= results[j].score)
    {
      var tokens := Tokenize(query);
      BestAreBest(Hits(Scorer(params, View(), tokens), docs, store.view, now), topK);
      if tokens == [] {
        HitsNone(params, View(), docs, store.view, now);
        return [], 0;
      }
      var hits := CollectHits(tokens, now);
      var best := Best(hits, topK);
      BestActive(Scorer(params, View(), tokens), docs, store.view, now, topK);
      results := Show(best, now);
      total := |hits|;
    }
  }

  lemma {:induction false} BestActive(scorer: Doc -> real, docs: seq<Doc>, s: S.Store, now: int, k: nat)
    ensures var best := Best(Hits(scorer, docs, s, now), k);
            forall i :: 0 <= i < |best| ==> S.GetActive(s, best[i].id, now).Some?
  {
    var hits := Hits(scorer, docs, s, now);
    var best := Best(hits, k);
    SortFacts(hits, ByScore());
    forall i | 0 <= i < |best| ensures S.GetActive(s, best[i].id, now).Some?
    {
      assert best[i] in hits;
      var j := HitGiven(scorer, docs, s, now, best[i]);
    }
  }

  lemma AnyService(vs: seq<S.Version>)
    ensures Filter(vs, S.OfService(None)) == vs
  {
    FilterAll(vs, S.OfService(None));
  }

  lemma CountsNothing()
    ensures CountsDocs(map[], [])
  {}
}
