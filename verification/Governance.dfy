/** Evidence governance: citations are restricted to collected evidence, causes
    without support are demoted, and the verdict follows from what is left
    (python/app/infrastructure/evidence_governance.py). */
module Governance {
  import opened Collections
  import opened Domain

  datatype Claim = Claim(code: Cause, supports: bool, id: string)

  datatype Traceability = Traceability(
    totalClaims: nat,
    traceableClaims: nat,
    untraceable: seq<Cause>,
    invalid: seq<Claim>,
    fullyTraceable: bool
  )

  function ClaimList(code: Cause, supports: bool, ids: seq<string>): (cs: seq<Claim>)
    ensures |cs| == |ids| && forall i :: 0 <= i < |ids| ==> cs[i] == Claim(code, supports, ids[i])
  {
    seq(|ids|, i requires 0 <= i < |ids| => Claim(code, supports, ids[i]))
  }

  /** The citations of one hypothesis, in the order the check visits them. */
  function ClaimsOf(h: Hypothesis): seq<Claim>
  {
    ClaimList(h.code, true, h.supporting) + ClaimList(h.code, false, h.contradicting)
  }

  function Claims(hs: seq<Hypothesis>): seq<Claim>
  {
    if hs == [] then [] else Claims(hs[..|hs| - 1]) + ClaimsOf(hs[|hs| - 1])
  }

  function Collected(ids: set<string>): Claim -> bool
  {
    (c: Claim) => c.id in ids
  }

  function Missing(ids: set<string>): Claim -> bool
  {
    (c: Claim) => c.id !in ids
  }

  function NoCitation(): Hypothesis -> bool
  {
    (h: Hypothesis) => h.supporting == [] && h.contradicting == []
  }

  ghost predicate Cited(h: Hypothesis, ids: set<string>)
  {
    (forall id | id in h.supporting :: id in ids) && (forall id | id in h.contradicting :: id in ids)
  }

  ghost predicate AllCited(hs: seq<Hypothesis>, ids: set<string>)
  {
    forall h | h in hs :: Cited(h, ids)
  }

  function Codes(hs: seq<Hypothesis>): seq<Cause>
  {
    seq(|hs|, i requires 0 <= i < |hs| => hs[i].code)
  }

  lemma CodesMember(hs: seq<Hypothesis>, code: Cause)
    ensures code in Codes(hs) <==> exists h :: h in hs && h.code == code
  {
    if code in Codes(hs) {
      var i :| 0 <= i < |hs| && Codes(hs)[i] == code;
      assert hs[i] in hs;
    }
    if h :| h in hs && h.code == code {
      var i :| 0 <= i < |hs| && hs[i] == h;
      assert Codes(hs)[i] == code;
    }
  }

  method CheckIds(code: Cause, supports: bool, cited: seq<string>, ids: set<string>)
    returns (traceable: nat, invalid: seq<Claim>)
    ensures traceable == Count(ClaimList(code, supports, cited), Collected(ids))
    ensures invalid == Filter(ClaimList(code, supports, cited), Missing(ids))
  {
    traceable, invalid := 0, [];
    for i := 0 to |cited|
      invariant traceable == Count(ClaimList(code, supports, cited[..i]), Collected(ids))
      invariant invalid == Filter(ClaimList(code, supports, cited[..i]), Missing(ids))
    {
      var claim := Claim(code, supports, cited[i]);
      assert ClaimList(code, supports, cited[..i + 1]) == ClaimList(code, supports, cited[..i]) + [claim];
      CountAppend(ClaimList(code, supports, cited[..i]), claim, Collected(ids));
      FilterAppend(ClaimList(code, supports, cited[..i]), claim, Missing(ids));
      if cited[i] in ids {
        traceable := traceable + 1;
      } else {
        invalid := invalid + [claim];
      }
    }
    assert cited[..|cited|] == cited;
  }

  method ValidateTraceability(hs: seq<Hypothesis>, evidence: seq<Evidence>) returns (t: Traceability)
    ensures t.totalClaims == |Claims(hs)|
    ensures t.traceableClaims == Count(Claims(hs), Collected(EvidenceIds(evidence)))
    ensures t.invalid == Filter(Claims(hs), Missing(EvidenceIds(evidence)))
    ensures t.untraceable == Codes(Filter(hs, NoCitation()))
    ensures t.fullyTraceable <==> AllCited(hs, EvidenceIds(evidence))
  {
    var ids := EvidenceIds(evidence);
    var total, traceable, untraceable, invalid := 0, 0, [], [];
    for i := 0 to |hs|
      invariant total == |Claims(hs[..i])|
      invariant traceable == Count(Claims(hs[..i]), Collected(ids))
      invariant invalid == Filter(Claims(hs[..i]), Missing(ids))
      invariant untraceable == Codes(Filter(hs[..i], NoCitation()))
    {
      var h := hs[i];
      var okSupport, badSupport := CheckIds(h.code, true, h.supporting, ids);
      var okContra, badContra := CheckIds(h.code, false, h.contradicting, ids);
      assert hs[..i + 1] == hs[..i] + [h];
      ClaimsAppend(hs[..i], h, ids);
      UncitedAppend(hs[..i], h);
      total := total + |h.supporting| + |h.contradicting|;
      traceable := traceable + okSupport + okContra;
      invalid := invalid + badSupport + badContra;
      if h.supporting == [] && h.contradicting == [] {
        untraceable := untraceable + [h.code];
      }
    }
    assert hs[..|hs|] == hs;
    FullyTraceable(hs, ids);
    t := Traceability(total, traceable, untraceable, invalid, |invalid| == 0 && traceable == total);
  }

  lemma {:induction false} FullyTraceable(hs: seq<Hypothesis>, ids: set<string>)
    ensures Filter(Claims(hs), Missing(ids)) == [] && Count(Claims(hs), Collected(ids)) == |Claims(hs)| <==>
            AllCited(hs, ids)
  {
    ClaimsSplit(Claims(hs), ids);
    ClaimsCited(hs, ids);
  }

  lemma {:induction false} UncitedAppend(hs: seq<Hypothesis>, h: Hypothesis)
    ensures Codes(Filter(hs + [h], NoCitation())) ==
            Codes(Filter(hs, NoCitation())) + (if h.supporting == [] && h.contradicting == [] then [h.code] else [])
  {
    FilterAppend(hs, h, NoCitation());
    CodesAppend(Filter(hs, NoCitation()), h);
    assert Codes(Filter(hs, NoCitation())) + [] == Codes(Filter(hs, NoCitation()));
  }

  lemma CodesAppend(hs: seq<Hypothesis>, h: Hypothesis)
    ensures Codes(hs + [h]) == Codes(hs) + [h.code]
  {}

  lemma {:induction false} ClaimsAppend(hs: seq<Hypothesis>, h: Hypothesis, ids: set<string>)
    ensures |Claims(hs + [h])| == |Claims(hs)| + |h.supporting| + |h.contradicting|
    ensures Count(Claims(hs + [h]), Collected(ids)) ==
            Count(Claims(hs), Collected(ids)) + Count(ClaimList(h.code, true, h.supporting), Collected(ids))
            + Count(ClaimList(h.code, false, h.contradicting), Collected(ids))
    ensures Filter(Claims(hs + [h]), Missing(ids)) ==
            Filter(Claims(hs), Missing(ids)) + Filter(ClaimList(h.code, true, h.supporting), Missing(ids))
            + Filter(ClaimList(h.code, false, h.contradicting), Missing(ids))
  {
    assert (hs + [h])[..|hs|] == hs;
    var a, b := ClaimList(h.code, true, h.supporting), ClaimList(h.code, false, h.contradicting);
    assert Claims(hs + [h]) == Claims(hs) + (a + b);
    Concat3(Claims(hs), a, b, Collected(ids), Missing(ids));
  }

  /** Each claim is either traceable or reported as invalid. */
  lemma {:induction false} ClaimsSplit(cs: seq<Claim>, ids: set<string>)
    ensures Count(cs, Collected(ids)) + |Filter(cs, Missing(ids))| == |cs|
  {
    if cs != [] {
      ClaimsSplit(cs[..|cs| - 1], ids);
    }
  }

  lemma ListCited(code: Cause, supports: bool, cited: seq<string>, ids: set<string>)
    ensures Filter(ClaimList(code, supports, cited), Missing(ids)) == [] <==> forall id | id in cited :: id in ids
  {
    var cs := ClaimList(code, supports, cited);
    FilterMembers(cs, Missing(ids));
    if Filter(cs, Missing(ids)) == [] {
      forall id | id in cited ensures id in ids
      {
        var i :| 0 <= i < |cited| && cited[i] == id;
        assert cs[i] in cs;
      }
    }
    if forall id | id in cited :: id in ids {
      FilterNone(cs, Missing(ids));
    }
  }

  lemma HypothesisCited(h: Hypothesis, ids: set<string>)
    ensures Filter(ClaimsOf(h), Missing(ids)) == [] <==> Cited(h, ids)
  {
    FilterConcat(ClaimList(h.code, true, h.supporting), ClaimList(h.code, false, h.contradicting), Missing(ids));
    ListCited(h.code, true, h.supporting, ids);
    ListCited(h.code, false, h.contradicting, ids);
  }

  lemma AllCitedSplit(hs: seq<Hypothesis>, ids: set<string>)
    requires hs != []
    ensures AllCited(hs, ids) <==> AllCited(hs[..|hs| - 1], ids) && Cited(hs[|hs| - 1], ids)
  {
    var n := |hs| - 1;
    forall h | h in hs ensures h in hs[..n] || h == hs[n] {}
  }

  lemma {:induction false} ClaimsCited(hs: seq<Hypothesis>, ids: set<string>)
    ensures Filter(Claims(hs), Missing(ids)) == [] <==> AllCited(hs, ids)
  {
    if hs != [] {
      var n := |hs| - 1;
      ClaimsCited(hs[..n], ids);
      FilterConcat(Claims(hs[..n]), ClaimsOf(hs[n]), Missing(ids));
      HypothesisCited(hs[n], ids);
      AllCitedSplit(hs, ids);
    }
  }

  // ---------- Restricting citations to collected evidence ----------

  function IsCollected(ids: set<string>): string -> bool
  {
    id => id in ids
  }

  function Restrict(h: Hypothesis, ids: set<string>): Hypothesis
  {
    h.(supporting := Filter(h.supporting, IsCollected(ids)), contradicting := Filter(h.contradicting, IsCollected(ids)))
  }

  function RestrictAll(hs: seq<Hypothesis>, ids: set<string>): seq<Hypothesis>
  {
    seq(|hs|, i requires 0 <= i < |hs| => Restrict(hs[i], ids))
  }

  // ---------- Supported causes first ----------

  function Supported(): Hypothesis -> bool
  {
    (h: Hypothesis) => h.supporting != []
  }

  function Unsupported(): Hypothesis -> bool
  {
    (h: Hypothesis) => h.supporting == []
  }

  function Ranked(hs: seq<Hypothesis>): seq<Hypothesis>
  {
    seq(|hs|, i requires 0 <= i < |hs| => hs[i].(rank := i + 1))
  }

  function Demoted(hs: seq<Hypothesis>): seq<Hypothesis>
  {
    seq(|hs|, i requires 0 <= i < |hs| => hs[i].(confidence := Low))
  }

  function SupportedFirst(hs: seq<Hypothesis>): seq<Hypothesis>
  {
    Ranked(Filter(hs, Supported()) + Demoted(Filter(hs, Unsupported())))
  }

  method FilterWithoutEvidence(hs: seq<Hypothesis>) returns (ranked: seq<Hypothesis>)
    ensures ranked == SupportedFirst(hs)
  {
    var withEvidence := Filter(hs, Supported());
    var without := Filter(hs, Unsupported());
    ranked := [];
    var rank := 1;
    for i := 0 to |withEvidence|
      invariant rank == i + 1
      invariant ranked == Ranked(withEvidence[..i])
    {
      ranked := ranked + [withEvidence[i].(rank := rank)];
      rank := rank + 1;
    }
    assert withEvidence[..|withEvidence|] + Demoted(without[..0]) == withEvidence;
    for i := 0 to |without|
      invariant rank == |withEvidence| + i + 1
      invariant ranked == Ranked(withEvidence + Demoted(without[..i]))
    {
      ranked := ranked + [without[i].(confidence := Low, rank := rank)];
      rank := rank + 1;
    }
    assert without[..|without|] == without;
  }

  // ---------- Verdict ----------

  function Verdict(hs: seq<Hypothesis>, fullyTraceable: bool): Status
  {
    if hs == [] then Inconclusive
    else if hs[0].supporting == [] then Inconclusive
    else if hs[0].confidence == Low then Inconclusive
    else if !fullyTraceable then Inconclusive
    else Diagnosed
  }

  // ---------- What validation establishes ----------

  ghost predicate RankedInOrder(hs: seq<Hypothesis>)
  {
    forall i :: 0 <= i < |hs| ==> hs[i].rank == i + 1
  }

  ghost predicate SupportOrdered(hs: seq<Hypothesis>)
  {
    forall i, j :: 0 <= i < j < |hs| && hs[j].supporting != [] ==> hs[i].supporting != []
  }

  ghost predicate UnsupportedAreLow(hs: seq<Hypothesis>)
  {
    forall h | h in hs && h.supporting == [] :: h.confidence == Low
  }

  function Validated(hs: seq<Hypothesis>, evidence: seq<Evidence>): seq<Hypothesis>
  {
    SupportedFirst(RestrictAll(hs, EvidenceIds(evidence)))
  }

  lemma {:induction false} SupportSplit(hs: seq<Hypothesis>)
    ensures |Filter(hs, Supported())| + |Filter(hs, Unsupported())| == |hs|
  {
    if hs != [] {
      SupportSplit(hs[..|hs| - 1]);
    }
  }

  lemma RestrictedCited(hs: seq<Hypothesis>, ids: set<string>)
    ensures AllCited(RestrictAll(hs, ids), ids)
    ensures forall h | h in RestrictAll(hs, ids) :: h.code in Codes(hs)
  {
    forall h | h in RestrictAll(hs, ids) ensures Cited(h, ids) && h.code in Codes(hs)
    {
      var i :| 0 <= i < |hs| && RestrictAll(hs, ids)[i] == h;
      FilterMembers(hs[i].supporting, IsCollected(ids));
      FilterMembers(hs[i].contradicting, IsCollected(ids));
      assert Codes(hs)[i] == h.code;
    }
  }

  /** The position of a cause after re-ranking tells whether it has support. */
  lemma {:induction false} SupportedFirstAt(hs: seq<Hypothesis>, i: nat)
    requires i < |SupportedFirst(hs)|
    ensures var r, yes := SupportedFirst(hs)[i], |Filter(hs, Supported())|;
            && r.rank == i + 1
            && (r.supporting != [] <==> i < yes)
            && (r.supporting == [] ==> r.confidence == Low)
            && (exists h | h in hs ::
                  h.code == r.code && h.supporting == r.supporting && h.contradicting == r.contradicting)
  {
    var yes, no := Filter(hs, Supported()), Filter(hs, Unsupported());
    FilterMembers(hs, Supported());
    FilterMembers(hs, Unsupported());
    var origin := if i < |yes| then yes[i] else no[i - |yes|];
    assert origin in yes || origin in no;
    if i < |yes| {
      assert yes[i] in yes;
    }
    assert origin in hs;
  }

  /** After validation nothing cites evidence outside the collection, the ranks
      are 1..n, supported causes precede unsupported ones, and only supported
      causes keep a confidence above Low; no cause is added or lost. */
  lemma ValidationEstablishes(hs: seq<Hypothesis>, evidence: seq<Evidence>)
    ensures var r := Validated(hs, evidence);
            && |r| == |hs|
            && AllCited(r, EvidenceIds(evidence))
            && RankedInOrder(r) && SupportOrdered(r) && UnsupportedAreLow(r)
            && (forall h | h in r :: h.code in Codes(hs))
  {
    var ids := EvidenceIds(evidence);
    var restricted := RestrictAll(hs, ids);
    SupportSplit(restricted);
    RestrictedCited(hs, ids);
    var r := Validated(hs, evidence);
    forall i | 0 <= i < |r|
      ensures Cited(r[i], ids) && r[i].code in Codes(hs) && r[i].rank == i + 1
      ensures r[i].supporting != [] <==> i < |Filter(restricted, Supported())|
      ensures r[i].supporting == [] ==> r[i].confidence == Low
    {
      SupportedFirstAt(restricted, i);
      var h :| h in restricted && h.code == r[i].code && h.supporting == r[i].supporting &&
        h.contradicting == r[i].contradicting;
      assert Cited(h, ids);
    }
  }

  /** A cause at the head that keeps a collected supporting id stays at the head. */
  lemma ValidationKeepsHead(hs: seq<Hypothesis>, evidence: seq<Evidence>, id: string)
    requires hs != [] && id in hs[0].supporting && id in EvidenceIds(evidence)
    ensures var r := Validated(hs, evidence);
            && r != [] && r[0].code == hs[0].code && r[0].confidence == hs[0].confidence
            && r[0].rank == 1 && id in r[0].supporting
  {
    var ids := EvidenceIds(evidence);
    var restricted := RestrictAll(hs, ids);
    FilterMembers(hs[0].supporting, IsCollected(ids));
    assert restricted[0] == Restrict(hs[0], ids);
    FilterHead(restricted, Supported());
  }

  /** On validated causes traceability always holds, so the verdict is Diagnosed
      exactly when the top cause has support and is not Low. */
  lemma VerdictOfValidated(hs: seq<Hypothesis>, evidence: seq<Evidence>, full: bool)
    requires full <==> AllCited(Validated(hs, evidence), EvidenceIds(evidence))
    ensures var r := Validated(hs, evidence);
            Verdict(r, full) == Diagnosed <==> r != [] && r[0].supporting != [] && r[0].confidence != Low
  {
    ValidationEstablishes(hs, evidence);
  }
}
