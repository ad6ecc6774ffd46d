/** What merging makes of the summaries of one cause (python/app/agent/llm_graph.py). */
module MergeMeaning {
  import opened Collections
  import opened Domain
  import opened Text
  import opened Merging

  predicate Stronger(c: Confidence, d: Confidence)
  {
    (c == High && d != High) || (c == Medium && d == Low)
  }

  lemma ContainsAt(text: string, term: string, i: nat)
    requires i + |term| <= |text| && text[i..i + |term|] == term
    ensures Contains(text, term)
  {
    assert OccursAt(text, term, i);
  }

  /** A stronger mention with a summary replaces the summary. Otherwise none is lost: the
      merged summary contains both, adds nothing but a separator, and starts with the
      earlier one; what it contains already is not added. */
  lemma SummaryMeans(have: Hypothesis, more: Hypothesis)
    ensures var s := Combine(Llm, have, more).summary;
            && (Stronger(more.confidence, have.confidence) && more.summary != "" ==> s == more.summary)
            && (Stronger(more.confidence, have.confidence) && more.summary == "" ==> s == have.summary)
            && (!Stronger(more.confidence, have.confidence) ==>
                && Contains(s, more.summary) && have.summary <= s
                && |s| <= |have.summary| + 2 + |more.summary|
                && (Contains(have.summary, more.summary) ==> s == have.summary)
                && (have.summary == "" ==> s == more.summary))
    ensures Combine(Rules, have, more).summary == have.summary
  {
    var s := Combine(Llm, have, more).summary;
    ContainsAt(have.summary, "", 0);
    if s == have.summary + "; " + more.summary {
      assert s[|have.summary| + 2..|have.summary| + 2 + |more.summary|] == more.summary;
      ContainsAt(s, more.summary, |have.summary| + 2);
    }
    if s == more.summary {
      assert s[0..|s|] == s;
      ContainsAt(s, more.summary, 0);
    }
  }
}
