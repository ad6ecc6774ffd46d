/** Merging hypotheses that name the same cause, in the two variants the
    rule-based and the LLM agent use (python/app/agent/graph.py,
    python/app/agent/llm_graph.py). */
module Merging {
  import opened Collections
  import opened StableSort
  import opened Domain
  import opened Text
  import opened Governance

  datatype Style = Rules | Llm

  // ---------- One hypothesis into another ----------

  function Score(c: Confidence): int
  {
    match c case High => 3 case Medium => 2 case Low => 1
  }

  function Better(c: Confidence, d: Confidence): Confidence
  {
    if Score(c) > Score(d) then c else d
  }

  function Same<T>(): T -> T
  {
    x => x
  }

  /** list(dict.fromkeys(ids)) */
  function Unique(ids: seq<string>): seq<string>
  {
    FirstOccurrences(ids, Same())
  }

  /** Appends the ids that are not there yet. */
  function AddMissing(have: seq<string>, more: seq<string>): seq<string>
  {
    if more == [] then have
    else
      var so := AddMissing(have, more[..|more| - 1]);
      if more[|more| - 1] in so then so else so + [more[|more| - 1]]
  }

  function Fresh(style: Style, h: Hypothesis): Hypothesis
  {
    match style
    case Rules => h.(rank := 0)
    case Llm => h.(supporting := Unique(h.supporting), contradicting := Unique(h.contradicting), rank := 0)
  }

  function JoinedSummary(have: Hypothesis, more: Hypothesis): string
  {
    if Score(more.confidence) > Score(have.confidence) then
      if more.summary != "" then more.summary else have.summary
    else if more.summary != "" && !Contains(have.summary, more.summary) then
      if have.summary != "" then have.summary + "; " + more.summary else more.summary
    else have.summary
  }

  function Combine(style: Style, have: Hypothesis, more: Hypothesis): Hypothesis
  {
    have.(confidence := Better(more.confidence, have.confidence),
          supporting := AddMissing(have.supporting, more.supporting),
          contradicting := AddMissing(have.contradicting, more.contradicting),
          summary := if style == Rules then have.summary else JoinedSummary(have, more))
  }

  /** Position of a cause in the insertion-ordered table, or its size. */
  function Find(table: seq<Hypothesis>, code: Cause): (i: nat)
    ensures i <= |table|
    ensures i < |table| ==> table[i].code == code
    ensures i == |table| ==> forall k :: 0 <= k < |table| ==> table[k].code != code
  {
    if table == [] then 0
    else
      var i := Find(table[..|table| - 1], code);
      if i < |table| - 1 then i
      else if table[|table| - 1].code == code then |table| - 1 else |table|
  }

  function Absorb(style: Style, table: seq<Hypothesis>, h: Hypothesis): seq<Hypothesis>
  {
    var i := Find(table, h.code);
    if i < |table| then table[i := Combine(style, table[i], h)] else table + [Fresh(style, h)]
  }

  function Merge(style: Style, hs: seq<Hypothesis>): seq<Hypothesis>
  {
    if hs == [] then [] else Absorb(style, Merge(style, hs[..|hs| - 1]), hs[|hs| - 1])
  }

  method AddMissingIdsTo(have: seq<string>, more: seq<string>) returns (ids: seq<string>)
    ensures ids == AddMissing(have, more)
  {
    ids := have;
    for k := 0 to |more|
      invariant ids == AddMissing(have, more[..k])
    {
      assert more[..k + 1][..k] == more[..k];
      if more[k] !in ids {
        ids := ids + [more[k]];
      }
    }
    assert more[..|more|] == more;
  }

  /** Updates the entry of a cause that is there already. */
  method CombineInto(style: Style, have: Hypothesis, more: Hypothesis) returns (h: Hypothesis)
    ensures h == Combine(style, have, more)
  {
    var supporting := AddMissingIdsTo(have.supporting, more.supporting);
    var contradicting := AddMissingIdsTo(have.contradicting, more.contradicting);
    var summary := if style == Rules then have.summary else JoinedSummary(have, more);
    var confidence := if Score(more.confidence) > Score(have.confidence) then more.confidence else have.confidence;
    h := have.(confidence := confidence, supporting := supporting, contradicting := contradicting, summary := summary);
  }

  method MergeHypotheses(style: Style, hs: seq<Hypothesis>) returns (table: seq<Hypothesis>)
    ensures table == Merge(style, hs)
  {
    table := [];
    for i := 0 to |hs|
      invariant table == Merge(style, hs[..i])
    {
      assert hs[..i + 1][..i] == hs[..i];
      var at := Find(table, hs[i].code);
      if at == |table| {
        table := table + [Fresh(style, hs[i])];
      } else {
        var h := CombineInto(style, table[at], hs[i]);
        table := table[at := h];
      }
    }
    assert hs[..|hs|] == hs;
  }

  // ---------- What merging means: one entry of facts per cause ----------

  datatype Facts = Facts(confidence: Confidence, supporting: set<string>, contradicting: set<string>)

  function IdsOf(h: Hypothesis, supports: bool): seq<string>
  {
    if supports then h.supporting else h.contradicting
  }

  /** All ids cited for (or against) a cause. */
  function AllIds(hs: seq<Hypothesis>, code: Cause, supports: bool): set<string>
  {
    set h, id | h in hs && h.code == code && id in IdsOf(h, supports) :: id
  }

  predicate Claimed(hs: seq<Hypothesis>, code: Cause, c: Confidence)
  {
    exists h | h in hs :: h.code == code && h.confidence == c
  }

  function Best(hs: seq<Hypothesis>, code: Cause): Confidence
  {
    if Claimed(hs, code, High) then High else if Claimed(hs, code, Medium) then Medium else Low
  }

  function FactsOf(hs: seq<Hypothesis>, code: Cause): Facts
  {
    Facts(Best(hs, code), AllIds(hs, code, true), AllIds(hs, code, false))
  }

  /** The order-free meaning of a hypothesis list. */
  function Digest(hs: seq<Hypothesis>): map<Cause, Facts>
  {
    map code | code in Codes(hs) :: FactsOf(hs, code)
  }

  function CodeOf(): Hypothesis -> Cause
  {
    (h: Hypothesis) => h.code
  }

  lemma {:induction false} AddMissingIds(have: seq<string>, more: seq<string>)
    ensures forall id :: id in AddMissing(have, more) <==> id in have || id in more
    ensures have <= AddMissing(have, more)
  {
    if more != [] {
      AddMissingIds(have, more[..|more| - 1]);
      assert more == more[..|more| - 1] + [more[|more| - 1]];
    }
  }

  lemma UniqueIds(ids: seq<string>)
    ensures forall id :: id in Unique(ids) <==> id in ids
    ensures Unique(Unique(ids)) == Unique(ids)
  {
    FirstOccurrencesKeys(ids, Same());
    forall id | id in ids ensures id in Unique(ids)
    {
      assert HasKey(ids, Same(), id) by {
        var i :| 0 <= i < |ids| && ids[i] == id;
        assert Same<string>()(ids[i]) == id;
      }
      assert HasKey(Unique(ids), Same(), id);
    }
    FirstOccurrencesDistinct(ids, Same());
    FirstOccurrencesOfDistinct(Unique(ids), Same());
  }

  lemma CombinedClaimed(style: Style, table: seq<Hypothesis>, i: nat, h: Hypothesis, code: Cause, c: Confidence)
    requires i < |table| && table[i].code == h.code && Claimed(table[i := Combine(style, table[i], h)], code, c)
    ensures Claimed(table + [h], code, c)
  {
    var a, b := table[i := Combine(style, table[i], h)], table + [h];
    var x :| x in a && x.code == code && x.confidence == c;
    var k :| 0 <= k < |a| && a[k] == x;
    assert b[i] == table[i] && b[|table|] == h;
    assert k != i ==> b[k] == x;
    assert if k != i then b[k] in b else b[i] in b && b[|table|] in b;
  }

  lemma BestCombined(style: Style, table: seq<Hypothesis>, i: nat, h: Hypothesis, code: Cause, c: Confidence)
    requires i < |table| && table[i].code == h.code && Claimed(table + [h], code, c)
    requires forall d :: Score(d) > Score(c) ==> !Claimed(table + [h], code, d)
    ensures Claimed(table[i := Combine(style, table[i], h)], code, c)
  {
    var a, b := table[i := Combine(style, table[i], h)], table + [h];
    var x :| x in b && x.code == code && x.confidence == c;
    var k :| 0 <= k < |b| && b[k] == x;
    assert b[i] == table[i] && b[|table|] == h;
    if k == i || k == |table| {
      assert b[i] in b && b[|table|] in b && a[i] in a;
    } else {
      assert a[k] == x;
    }
  }

  /** Replacing an entry by its combination has the meaning of appending. */
  lemma CombineClaims(style: Style, table: seq<Hypothesis>, i: nat, h: Hypothesis, code: Cause)
    requires i < |table| && table[i].code == h.code
    ensures Best(table[i := Combine(style, table[i], h)], code) == Best(table + [h], code)
  {
    var a, b := table[i := Combine(style, table[i], h)], table + [h];
    forall c | Claimed(a, code, c) ensures Claimed(b, code, c)
    {
      CombinedClaimed(style, table, i, h, code, c);
    }
    forall c | Claimed(b, code, c) && (forall d :: Score(d) > Score(c) ==> !Claimed(b, code, d))
      ensures Claimed(a, code, c)
    {
      BestCombined(style, table, i, h, code, c);
    }
  }

  lemma IdFound(xs: seq<Hypothesis>, code: Cause, supports: bool, id: string) returns (k: nat)
    requires id in AllIds(xs, code, supports)
    ensures k < |xs| && xs[k].code == code && id in IdsOf(xs[k], supports)
  {
    var x :| x in xs && x.code == code && id in IdsOf(x, supports);
    k :| 0 <= k < |xs| && xs[k] == x;
  }

  lemma IdAt(xs: seq<Hypothesis>, code: Cause, supports: bool, id: string, k: nat)
    requires k < |xs| && xs[k].code == code && id in IdsOf(xs[k], supports)
    ensures id in AllIds(xs, code, supports)
  {
    assert xs[k] in xs;
  }

  lemma CombineIds(style: Style, table: seq<Hypothesis>, i: nat, h: Hypothesis, code: Cause, supports: bool)
    requires i < |table| && table[i].code == h.code
    ensures AllIds(table[i := Combine(style, table[i], h)], code, supports) == AllIds(table + [h], code, supports)
  {
    var e := Combine(style, table[i], h);
    var a, b := table[i := e], table + [h];
    AddMissingIds(IdsOf(table[i], supports), IdsOf(h, supports));
    assert IdsOf(e, supports) == AddMissing(IdsOf(table[i], supports), IdsOf(h, supports));
    forall id ensures id in AllIds(a, code, supports) <==> id in AllIds(b, code, supports)
    {
      if id in AllIds(a, code, supports) {
        var k := IdFound(a, code, supports, id);
        IdAt(b, code, supports, id, if k == i && id !in IdsOf(table[i], supports) then |table| else k);
      }
      if id in AllIds(b, code, supports) {
        var k := IdFound(b, code, supports, id);
        IdAt(a, code, supports, id, if k == |table| then i else k);
      }
    }
  }

  lemma CombineDigest(style: Style, table: seq<Hypothesis>, i: nat, h: Hypothesis)
    requires i < |table| && table[i].code == h.code
    ensures Digest(table[i := Combine(style, table[i], h)]) == Digest(table + [h])
  {
    var a, b := table[i := Combine(style, table[i], h)], table + [h];
    assert Codes(b) == Codes(table) + [h.code];
    assert Codes(a) == Codes(table);
    assert Codes(table)[i] == h.code;
    forall code ensures FactsOf(a, code) == FactsOf(b, code)
    {
      CombineClaims(style, table, i, h, code);
      CombineIds(style, table, i, h, code, true);
      CombineIds(style, table, i, h, code, false);
    }
  }

  /** Appending respects the meaning of what is appended to. */
  lemma DigestAppend(xs: seq<Hypothesis>, ys: seq<Hypothesis>, g: Hypothesis, h: Hypothesis)
    requires Digest(xs) == Digest(ys)
    requires g.code == h.code && g.confidence == h.confidence
    requires forall supports, id :: id in IdsOf(g, supports) <==> id in IdsOf(h, supports)
    ensures Digest(xs + [g]) == Digest(ys + [h])
  {
    assert Codes(xs + [g]) == Codes(xs) + [g.code];
    assert Codes(ys + [h]) == Codes(ys) + [h.code];
    assert Digest(xs).Keys == Digest(ys).Keys;
    forall code ensures code in Codes(xs) <==> code in Codes(ys)
    {
      assert code in Digest(xs).Keys <==> code in Digest(ys).Keys;
    }
    assert forall id :: id in IdsOf(g, true) <==> id in IdsOf(h, true);
    assert forall id :: id in IdsOf(g, false) <==> id in IdsOf(h, false);
    assert (set id | id in g.supporting) == (set id | id in h.supporting);
    assert (set id | id in g.contradicting) == (set id | id in h.contradicting);
    forall code ensures FactsOf(xs + [g], code) == FactsOf(ys + [h], code)
    {
      if code in Digest(xs) {
        assert FactsOf(xs, code) == Digest(xs)[code] == Digest(ys)[code] == FactsOf(ys, code);
      } else {
        FactsOfAbsent(xs, code);
        FactsOfAbsent(ys, code);
      }
      FactsOfAppend(xs, g, code);
      FactsOfAppend(ys, h, code);
    }
  }

  lemma FactsOfAbsent(xs: seq<Hypothesis>, code: Cause)
    requires code !in Codes(xs)
    ensures FactsOf(xs, code) == Facts(Low, {}, {})
  {
    CodesMember(xs, code);
  }

  lemma BestOfAppend(xs: seq<Hypothesis>, h: Hypothesis, code: Cause)
    ensures Best(xs + [h], code) == if h.code != code then Best(xs, code) else Better(h.confidence, Best(xs, code))
  {
    var r := xs + [h];
    forall x ensures x in r <==> x in xs || x == h {}
    forall c ensures Claimed(r, code, c) <==> Claimed(xs, code, c) || (h.code == code && h.confidence == c) {
      if Claimed(xs, code, c) {
        var x :| x in xs && x.code == code && x.confidence == c;
        assert x in r;
      }
      if h.code == code && h.confidence == c {
        assert h in r;
      }
    }
  }

  lemma IdsOfAppend(xs: seq<Hypothesis>, h: Hypothesis, code: Cause, supports: bool)
    ensures AllIds(xs + [h], code, supports) ==
            AllIds(xs, code, supports) + (if h.code != code then {} else set id | id in IdsOf(h, supports))
  {
    var r := xs + [h];
    forall x ensures x in r <==> x in xs || x == h {}
    forall id | id in AllIds(xs, code, supports) ensures id in AllIds(r, code, supports)
    {
      var x :| x in xs && x.code == code && id in IdsOf(x, supports);
      assert x in r;
    }
    if h.code == code {
      assert h in r;
    }
  }

  lemma FactsOfAppend(xs: seq<Hypothesis>, h: Hypothesis, code: Cause)
    ensures FactsOf(xs + [h], code) ==
            if h.code != code then FactsOf(xs, code)
            else Facts(Better(h.confidence, Best(xs, code)),
                       AllIds(xs, code, true) + (set id | id in h.supporting),
                       AllIds(xs, code, false) + (set id | id in h.contradicting))
  {
    BestOfAppend(xs, h, code);
    IdsOfAppend(xs, h, code, true);
    IdsOfAppend(xs, h, code, false);
  }

  /** Merging, in either variant, keeps exactly the facts of its input. */
  lemma {:induction false} MergeRefines(style: Style, hs: seq<Hypothesis>)
    ensures Digest(Merge(style, hs)) == Digest(hs)
  {
    if hs != [] {
      var n := |hs| - 1;
      MergeRefines(style, hs[..n]);
      var table, h := Merge(style, hs[..n]), hs[n];
      assert hs == hs[..n] + [h];
      var i := Find(table, h.code);
      if i < |table| {
        CombineDigest(style, table, i, h);
        DigestAppend(table, hs[..n], h, h);
      } else {
        UniqueIds(h.supporting);
        UniqueIds(h.contradicting);
        DigestAppend(table, hs[..n], Fresh(style, h), h);
      }
    }
  }

  lemma HasSame<T>(xs: seq<T>, x: T)
    ensures HasKey(xs, Same(), x) <==> x in xs
  {
    if x in xs {
      var i :| 0 <= i < |xs| && xs[i] == x;
      assert Same<T>()(xs[i]) == x;
    }
  }

  lemma AbsorbCodes(style: Style, table: seq<Hypothesis>, h: Hypothesis)
    ensures Codes(Absorb(style, table, h)) == if h.code in Codes(table) then Codes(table) else Codes(table) + [h.code]
  {
    var i := Find(table, h.code);
    if i < |table| {
      assert Codes(table)[i] == h.code;
    }
  }

  /** Causes appear once, in the order in which they were first named. */
  lemma {:induction false} MergeOrder(style: Style, hs: seq<Hypothesis>)
    ensures Codes(Merge(style, hs)) == FirstOccurrences(Codes(hs), Same())
  {
    if hs != [] {
      var n := |hs| - 1;
      MergeOrder(style, hs[..n]);
      assert hs == hs[..n] + [hs[n]];
      CodesAppend(hs[..n], hs[n]);
      AbsorbCodes(style, Merge(style, hs[..n]), hs[n]);
      FirstOccurrencesAppend(Codes(hs[..n]), hs[n].code, Same());
      FirstOccurrencesKeys(Codes(hs[..n]), Same());
      HasSame(Codes(hs[..n]), hs[n].code);
      HasSame(Codes(Merge(style, hs[..n])), hs[n].code);
    }
  }

  lemma {:induction false} MergeDistinct(style: Style, hs: seq<Hypothesis>)
    ensures DistinctKeys(Merge(style, hs), CodeOf())
  {
    MergeOrder(style, hs);
    FirstOccurrencesDistinct(Codes(hs), Same());
    var m := Merge(style, hs);
    forall i, j | 0 <= i < j < |m| ensures m[i].code != m[j].code
    {
      assert Same<Cause>()(Codes(m)[i]) != Same<Cause>()(Codes(m)[j]);
    }
  }

  /** The facts do not depend on the order of the input. */
  lemma DigestOfPermutation(hs: seq<Hypothesis>, gs: seq<Hypothesis>)
    requires multiset(hs) == multiset(gs)
    ensures Digest(hs) == Digest(gs)
  {
    forall h ensures h in hs <==> h in gs
    {
      assert h in multiset(hs) <==> h in multiset(gs);
    }
    forall code ensures (code in Codes(hs) <==> code in Codes(gs)) && FactsOf(hs, code) == FactsOf(gs, code)
    {
      CodesMember(hs, code);
      CodesMember(gs, code);
    }
  }

  /** Neither the order of the input nor the variant changes the merged facts. */
  lemma {:induction false} MergeOrderIrrelevant(style: Style, other: Style, hs: seq<Hypothesis>, gs: seq<Hypothesis>)
    requires multiset(hs) == multiset(gs)
    ensures Digest(Merge(style, hs)) == Digest(Merge(other, gs))
  {
    MergeRefines(style, hs);
    MergeRefines(other, gs);
    DigestOfPermutation(hs, gs);
  }

  /** In a merged table an entry carries all the facts of its cause. */
  lemma EntryFacts(table: seq<Hypothesis>, i: nat)
    requires DistinctKeys(table, CodeOf()) && i < |table|
    ensures table[i].code in Digest(table)
    ensures Digest(table)[table[i].code] ==
            Facts(table[i].confidence, set id | id in table[i].supporting, set id | id in table[i].contradicting)
  {
    assert Codes(table)[i] == table[i].code;
    forall h | h in table && h.code == table[i].code ensures h == table[i]
    {
      var k :| 0 <= k < |table| && table[k] == h;
      assert CodeOf()(table[k]) == CodeOf()(table[i]);
    }
    assert Claimed(table, table[i].code, table[i].confidence);
    forall supports ensures AllIds(table, table[i].code, supports) == set id | id in IdsOf(table[i], supports)
    {
      assert table[i] in table;
    }
    assert AllIds(table, table[i].code, true) == set id | id in IdsOf(table[i], true);
    assert AllIds(table, table[i].code, false) == set id | id in IdsOf(table[i], false);
  }

  // ---------- Idempotence ----------

  ghost predicate Settled(style: Style, h: Hypothesis)
  {
    Fresh(style, h) == h
  }

  lemma {:induction false} AddMissingUnique(have: seq<string>, more: seq<string>)
    requires Unique(have) == have
    ensures Unique(AddMissing(have, more)) == AddMissing(have, more)
  {
    if more != [] {
      var so, x := AddMissing(have, more[..|more| - 1]), more[|more| - 1];
      AddMissingUnique(have, more[..|more| - 1]);
      if x !in so {
        FirstOccurrencesAppend(so, x, Same());
        assert forall i :: 0 <= i < |so| ==> so[i] in so;
      }
    }
  }

  lemma {:induction false} MergeSettled(style: Style, hs: seq<Hypothesis>)
    ensures forall i :: 0 <= i < |Merge(style, hs)| ==> Settled(style, Merge(style, hs)[i])
  {
    if hs != [] {
      var n := |hs| - 1;
      var table, h := Merge(style, hs[..n]), hs[n];
      MergeSettled(style, hs[..n]);
      var i := Find(table, h.code);
      if i < |table| {
        assert Settled(style, table[i]);
        if style == Llm {
          AddMissingUnique(table[i].supporting, h.supporting);
          AddMissingUnique(table[i].contradicting, h.contradicting);
        }
      } else {
        UniqueIds(h.supporting);
        UniqueIds(h.contradicting);
      }
    }
  }

  lemma NotFound(table: seq<Hypothesis>)
    requires DistinctKeys(table, CodeOf()) && table != []
    ensures Find(table[..|table| - 1], table[|table| - 1].code) == |table| - 1
    ensures DistinctKeys(table[..|table| - 1], CodeOf())
  {
    var n := |table| - 1;
    forall k | 0 <= k < n ensures table[k].code != table[n].code
    {
      assert CodeOf()(table[k]) != CodeOf()(table[n]);
    }
  }

  lemma {:induction false} MergeOfSettled(style: Style, table: seq<Hypothesis>)
    requires DistinctKeys(table, CodeOf())
    requires forall i :: 0 <= i < |table| ==> Settled(style, table[i])
    ensures Merge(style, table) == table
  {
    if table != [] {
      var n := |table| - 1;
      MergeOfSettled(style, table[..n]);
      NotFound(table);
      assert table == table[..n] + [Fresh(style, table[n])];
    }
  }

  /** Merging a merged list changes nothing. */
  lemma {:induction false} MergeIdempotent(style: Style, hs: seq<Hypothesis>)
    ensures Merge(style, Merge(style, hs)) == Merge(style, hs)
  {
    MergeDistinct(style, hs);
    MergeSettled(style, hs);
    MergeOfSettled(style, Merge(style, hs));
  }

  // ---------- The LLM variant ranks and keeps three ----------

  /** The sort key (-score, no support, is UNKNOWN), packed into one number. */
  function RankKey(): Hypothesis -> real
  {
    (h: Hypothesis) => (4 * (3 - Score(h.confidence)) + (if h.supporting == [] then 2 else 0) +
                        (if h.code == Unknown then 1 else 0)) as real
  }

  ghost predicate RanksBefore(g: Hypothesis, h: Hypothesis)
  {
    || Score(g.confidence) > Score(h.confidence)
    || (g.confidence == h.confidence && g.supporting != [] && h.supporting == [])
    || (g.confidence == h.confidence && (g.supporting == [] <==> h.supporting == []) && g.code != Unknown &&
        h.code == Unknown)
  }

  lemma RankKeyOrder(g: Hypothesis, h: Hypothesis)
    ensures RankKey()(g) < RankKey()(h) <==> RanksBefore(g, h)
  {}

  function Cut(hs: seq<Hypothesis>): seq<Hypothesis>
  {
    hs[..if |hs| < 3 then |hs| else 3]
  }

  function MergeAndCut(hs: seq<Hypothesis>): seq<Hypothesis>
  {
    Cut(Sort(Merge(Llm, hs), RankKey()))
  }

  method MergeRankCut(hs: seq<Hypothesis>) returns (top: seq<Hypothesis>)
    ensures top == MergeAndCut(hs)
  {
    var table := MergeHypotheses(Llm, hs);
    top := Cut(Sort(table, RankKey()));
  }

  lemma CutPrefix(hs: seq<Hypothesis>)
    requires DistinctKeys(hs, CodeOf()) && Sorted(hs, RankKey())
    ensures DistinctKeys(Cut(hs), CodeOf()) && Sorted(Cut(hs), RankKey()) && Cut(Cut(hs)) == Cut(hs)
    ensures forall i :: 0 <= i < |Cut(hs)| ==> Cut(hs)[i] == hs[i]
  {}

  /** Merging, ranking and cutting what was merged, ranked and cut changes nothing. */
  lemma {:induction false} MergeAndCutIdempotent(hs: seq<Hypothesis>)
    ensures MergeAndCut(MergeAndCut(hs)) == MergeAndCut(hs)
  {
    var table := Merge(Llm, hs);
    var sorted, top := Sort(table, RankKey()), MergeAndCut(hs);
    MergeDistinct(Llm, hs);
    SortKeepsDistinct(table, RankKey(), CodeOf());
    SortFacts(table, RankKey());
    CutPrefix(sorted);
    MergeSettled(Llm, hs);
    forall i | 0 <= i < |top| ensures Settled(Llm, top[i])
    {
      assert top[i] in sorted && top[i] in table;
    }
    MergeOfSettled(Llm, top);
    SortOfSorted(top, RankKey());
  }

  /** Every cause the LLM cut keeps carries the facts the rule-based agent would
      merge for it from the same input. */
  lemma {:induction false} CutAgreesWithRules(hs: seq<Hypothesis>, kept: Hypothesis)
    requires kept in MergeAndCut(hs)
    ensures kept.code in Digest(Merge(Rules, hs))
    ensures Digest(Merge(Rules, hs))[kept.code] ==
            Facts(kept.confidence, set id | id in kept.supporting, set id | id in kept.contradicting)
  {
    var table := Merge(Llm, hs);
    SortFacts(table, RankKey());
    assert kept in table;
    var i :| 0 <= i < |table| && table[i] == kept;
    MergeDistinct(Llm, hs);
    EntryFacts(table, i);
    MergeOrderIrrelevant(Llm, Rules, hs, hs);
  }

  /** No cause the cut drops ranks before one it keeps. */
  lemma {:induction false} CutKeepsBest(hs: seq<Hypothesis>, kept: Hypothesis, dropped: Hypothesis)
    requires kept in MergeAndCut(hs)
    requires dropped in Merge(Llm, hs) && dropped !in MergeAndCut(hs)
    ensures !RanksBefore(dropped, kept)
  {
    var sorted := Sort(Merge(Llm, hs), RankKey());
    var cut := MergeAndCut(hs);
    SortFacts(Merge(Llm, hs), RankKey());
    var k :| 0 <= k < |cut| && cut[k] == kept;
    assert dropped in sorted;
    var j :| 0 <= j < |sorted| && sorted[j] == dropped;
    assert forall m :: 0 <= m < |cut| ==> sorted[m] == cut[m];
    assert j >= |cut|;
    assert RankKey()(sorted[k]) <= RankKey()(sorted[j]);
    RankKeyOrder(dropped, kept);
  }
}
