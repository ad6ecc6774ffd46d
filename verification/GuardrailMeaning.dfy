/** What the LLM agent's guard-rails are for, in terms of what the evidence shows: which
    answers force which cause, whatever the LLM replies
    (python/app/agent/llm_graph.py). */
module GuardrailMeaning {
  import opened Collections
  import opened Domain
  import opened Text
  import opened Governance
  import opened Investigation
  import A = LlmAgent

  /** A log that mentions "slow", or a latency far above its baseline and the threshold. */
  predicate ShowsSlowQuery(incident: Incident, e: Evidence)
  {
    var now, base := e.content.Current(), e.content.baseline;
    || (e.source == QueryLogs && exists i | 0 <= i < |e.content.logs| :: Contains(Lower(e.content.logs[i]), "slow"))
    || (e.source == QueryMetrics && e.content.metric == "latency_p95" &&
        base != 0.0 && now > 5.0 * base && now > incident.threshold)
  }

  /** A message about the exhausted pool: it says so in one of these ways, and is neither a
      start message nor about something else than the database. */
  predicate NamesFullPool(message: string)
  {
    var m := Lower(message);
    && ContainsAny(m, ["connection pool exhausted", "pool exhausted", "connection pool full", "pool full",
                       "timeout waiting for connection", "connection is not available", "too many connections",
                       "unable to acquire jdbc connection", "could not acquire jdbc connection"])
    && !ContainsAny(m, ["hikaripool-1 - start completed", "start completed"])
    && !ContainsAny(m, ["redis", "http", "thread", "request queued", "rejected"])
  }

  lemma NamesFullPoolExactly(message: string)
    ensures IsPoolExhaustionLog(message) <==> NamesFullPool(message)
  {}

  /** A log about the exhausted pool, or a pool more than 90 percent in use. */
  predicate ShowsFullPool(e: Evidence)
  {
    || (e.source == QueryLogs && exists i | 0 <= i < |e.content.logs| :: NamesFullPool(e.content.logs[i]))
    || (e.source == QueryMetrics && e.content.metric == "db_pool_active_ratio" && e.content.Current() > 0.9)
  }

  /** A pool less than 70 percent in use. */
  predicate ShowsIdlePool(e: Evidence)
  {
    e.source == QueryMetrics && e.content.metric == "db_pool_active_ratio" &&
    e.content.current.Some? && e.content.current.value < 0.7
  }

  predicate ShowsNothing(incident: Incident, e: Evidence)
  {
    !ShowsSlowQuery(incident, e) && !ShowsFullPool(e)
  }

  /** One finding: a cause at High confidence that cites the piece of evidence. */
  ghost predicate Finding(h: Hypothesis, code: Cause, e: Evidence)
  {
    h.code == code && h.confidence == High && h.supporting == [e.id] && h.contradicting == []
  }

  /** What one piece of evidence gives rise to: a slow query first, then a full pool. */
  lemma RuleFinds(incident: Incident, e: Evidence)
    ensures var found, slow := A.Rule(incident, e), ShowsSlowQuery(incident, e);
            && |found| == (if slow then 1 else 0) + (if ShowsFullPool(e) then 1 else 0)
            && (slow ==> Finding(found[0], DatabaseSlowQuery, e))
            && (ShowsFullPool(e) ==> Finding(found[|found| - 1], ConnectionPoolExhausted, e))
  {
    assert e.content.baseline * 5.0 == 5.0 * e.content.baseline;
    assert A.MentionsExhaustion(e.content.logs) <==>
           exists i | 0 <= i < |e.content.logs| :: NamesFullPool(e.content.logs[i]) by {
      forall i | 0 <= i < |e.content.logs|
        ensures IsPoolExhaustionLog(e.content.logs[i]) <==> NamesFullPool(e.content.logs[i])
      {
        NamesFullPoolExactly(e.content.logs[i]);
      }
    }
  }

  /** Piece k is the first to show anything. */
  ghost predicate FirstToShow(incident: Incident, evidence: seq<Evidence>, k: nat)
  {
    k < |evidence| && !ShowsNothing(incident, evidence[k]) && forall j :: 0 <= j < k ==>
      ShowsNothing(incident, evidence[j])
  }

  lemma {:induction false} NothingFound(incident: Incident, evidence: seq<Evidence>)
    requires forall j :: 0 <= j < |evidence| ==> ShowsNothing(incident, evidence[j])
    ensures A.Rules(incident, evidence) == []
  {
    if evidence != [] {
      NothingFound(incident, evidence[..|evidence| - 1]);
      RuleFinds(incident, evidence[|evidence| - 1]);
    }
  }

  lemma {:induction false} FirstFound(incident: Incident, evidence: seq<Evidence>, k: nat)
    requires FirstToShow(incident, evidence, k)
    ensures A.Rules(incident, evidence) != []
    ensures Finding(A.Rules(incident, evidence)[0],
                    if ShowsSlowQuery(incident, evidence[k]) then DatabaseSlowQuery
                    else ConnectionPoolExhausted, evidence[k])
  {
    var n := |evidence| - 1;
    if k < n {
      FirstFound(incident, evidence[..n], k);
    } else {
      NothingFound(incident, evidence[..n]);
      RuleFinds(incident, evidence[n]);
    }
  }

  /** Whatever the LLM replies: the first piece of evidence that shows a slow query or a full
      pool decides. The report is DIAGNOSED, with the slow query first when that piece shows
      one, and with the full pool first otherwise, provided no metric shows an idle pool; it
      has High confidence and cites collected evidence. */
  lemma EvidenceDecides(
    incident: Incident, plan: seq<PlanStep>, evidence: seq<Evidence>, failures: seq<string>, calls: nat,
    hypothesesReply: A.HypothesesReply, reportReply: A.ReportReply, k: nat)
    requires FirstToShow(incident, evidence, k)
    requires ShowsSlowQuery(incident, evidence[k]) || forall e | e in evidence :: !ShowsIdlePool(e)
    ensures var r := A.ReportOf(incident, plan, evidence, failures, calls, hypothesesReply, reportReply);
            && r.status == Diagnosed && r.topCauses != []
            && r.topCauses[0].code ==
               (if ShowsSlowQuery(incident, evidence[k]) then DatabaseSlowQuery else ConnectionPoolExhausted)
            && r.topCauses[0].confidence == High && r.topCauses[0].rank == 1
            && r.topCauses[0].supporting != [] &&
               forall id | id in r.topCauses[0].supporting :: id in EvidenceIds(evidence)
  {
    var guards := A.Guardrails(incident, evidence);
    FirstFound(incident, evidence, k);
    assert PoolIsLow(evidence) ==> exists e :: e in evidence && ShowsIdlePool(e);
    assert guards[0] == A.Rules(incident, evidence)[0];
    FilterHead(guards, A.Survives(evidence));
    A.GuardrailsDecide(incident, plan, evidence, failures, calls, hypothesesReply, reportReply);
  }

  /** The first piece to show anything, if one does. */
  lemma {:induction false} SomethingShown(incident: Incident, evidence: seq<Evidence>) returns (k: nat)
    requires exists e :: e in evidence && !ShowsNothing(incident, e)
    ensures FirstToShow(incident, evidence, k)
  {
    k := 0;
    while ShowsNothing(incident, evidence[k])
      invariant k < |evidence| && forall j :: 0 <= j < k ==> ShowsNothing(incident, evidence[j])
      decreases |evidence| - k
    {
      k := k + 1;
    }
  }

  ghost predicate Shown(incident: Incident, evidence: seq<Evidence>, h: Hypothesis)
  {
    exists e | e in evidence ::
      || (ShowsSlowQuery(incident, e) && Finding(h, DatabaseSlowQuery, e))
      || (ShowsFullPool(e) && Finding(h, ConnectionPoolExhausted, e))
  }

  lemma {:induction false} FoundIsShown(incident: Incident, evidence: seq<Evidence>, i: nat)
    requires i < |A.Rules(incident, evidence)|
    ensures Shown(incident, evidence, A.Rules(incident, evidence)[i])
  {
    var n := |evidence| - 1;
    var before, found := A.Rules(incident, evidence[..n]), A.Rule(incident, evidence[n]);
    if i < |before| {
      FoundIsShown(incident, evidence[..n], i);
    } else {
      RuleFinds(incident, evidence[n]);
      assert evidence[n] in evidence;
      assert A.Rules(incident, evidence)[i] == found[i - |before|];
    }
  }

  /** Every guard-rail cause is shown by the evidence it cites; the only other guard-rail is
      UNKNOWN, alone, and it stands exactly when nothing is shown. There are at most three. */
  lemma GuardrailsAreShown(incident: Incident, evidence: seq<Evidence>)
    ensures var guards := A.Guardrails(incident, evidence);
            && 1 <= |guards| <= 3
            && (if exists e :: e in evidence && !ShowsNothing(incident, e)
                then forall h | h in guards :: Shown(incident, evidence, h)
                else |guards| == 1 && guards[0].code == Unknown && guards[0].confidence == Low)
  {
    var guards := A.Guardrails(incident, evidence);
    if exists e :: e in evidence && !ShowsNothing(incident, e) {
      var k := SomethingShown(incident, evidence);
      FirstFound(incident, evidence, k);
      forall h | h in guards ensures Shown(incident, evidence, h)
      {
        var i :| 0 <= i < |guards| && guards[i] == h;
        FoundIsShown(incident, evidence, i);
      }
    } else {
      forall j | 0 <= j < |evidence| ensures ShowsNothing(incident, evidence[j])
      {
        assert evidence[j] in evidence;
      }
      NothingFound(incident, evidence);
    }
  }
}
