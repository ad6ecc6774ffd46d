/** The rule-based agent: a nine-node pipeline from an incident to a report
    (python/app/agent/graph.py). A run either reports or stops on a division by
    zero in the text of one rule. */
module RuleAgent {
  import opened Collections
  import opened StableSort
  import opened Domain
  import opened Text
  import opened Governance
  import opened Merging
  import opened Investigation

  // ---------- Topology and plan ----------

  function Ask(tool: Tool, service: string, words: seq<string>): PlanStep
  {
    PlanStep(tool, map["service" := service], if words == [] then map[] else map["keywords" := words])
  }

  function AskMetric(service: string, metric: string): PlanStep
  {
    PlanStep(QueryMetrics, map["service" := service, "metric" := metric], map[])
  }

  function Plan(incident: Incident): seq<PlanStep>
  {
    var s := incident.service;
    match incident.alertType
    case P95LatencyHigh => [
      AskMetric(s, "latency_p95"),
      AskMetric(s, POOL_METRIC),
      Ask(QueryLogs, s, ["slow", "timeout", "error"]),
      Ask(QueryDeployments, s, [])]
    case ErrorRateHigh => [
      Ask(QueryLogs, s, ["error", "exception", "fail"]),
      AskMetric(s, "error_rate"),
      Ask(QueryDeployments, s, [])]
    case ThroughputLow => [
      AskMetric(s, "request_rate"),
      Ask(QueryLogs, s, ["timeout", "blocked", "reject"]),
      AskMetric(s, "redis_latency_p95")]
    case MqLagHigh => [
      AskMetric(s, "mq_lag"),
      Ask(QueryLogs, s, ["consumer", "lag", "error"])]
  }

  function TopologyCalls(maxCalls: int): nat
  {
    if 0 >= maxCalls then 0 else 1
  }

  // ---------- Rules ----------

  const RESOURCE_TERMS: seq<string> :=
    ["thread pool", "connection pool full", "rate limited", "circuit breaker", "request queued", "rejected"]

  const REDIS_TERMS: seq<string> := ["redis"]
  const DOWNSTREAM_TERMS: seq<string> := ["503", "unavailable", "downstream"]
  const MQ_TERMS: seq<string> := ["mq", "consumer lag", "message backlog"]
  const CONFIGURATION_TERMS: seq<string> := ["configuration", "config", "property"]
  const DEPLOYMENT_TERMS: seq<string> := ["nullpointerexception", " after deploying "]

  predicate SlowQueryLog(m: string)
  {
    Contains(Lower(m), "slow") || Contains(m, "SQLSlowQuery")
  }

  predicate ResourceLog(m: string)
  {
    ContainsAny(Lower(m), RESOURCE_TERMS) && !ContainsAny(Lower(m), ["database", "hikaripool", "redis"])
  }

  predicate PoolExhaustionLog(m: string)
  {
    IsPoolExhaustionLog(Lower(m))
  }

  predicate SomeLog(logs: seq<string>, p: string -> bool)
  {
    exists i | 0 <= i < |logs| :: p(logs[i])
  }

  function Mentioning(terms: seq<string>): string -> bool
  {
    (m: string) => ContainsAny(Lower(m), terms)
  }

  function Backed(code: Cause, confidence: Confidence, ev: Evidence): Hypothesis
  {
    Hypothesis(code, confidence, [ev.id], [], "", 0)
  }

  /** The causes of the rules that apply, in order. */
  function Applicable(rules: seq<(bool, Hypothesis)>): seq<Hypothesis>
  {
    if rules == [] then []
    else
      var last := rules[|rules| - 1];
      Applicable(rules[..|rules| - 1]) + (if last.0 then [last.1] else [])
  }

  function LogRules(ev: Evidence): seq<(bool, Hypothesis)>
  {
    var logs := ev.content.logs;
    [(SomeLog(logs, SlowQueryLog), Backed(DatabaseSlowQuery, High, ev)),
     (SomeLog(logs, PoolExhaustionLog), Backed(ConnectionPoolExhausted, High, ev)),
     (SomeLog(logs, Mentioning(REDIS_TERMS)), Backed(RedisTimeout, Medium, ev)),
     (SomeLog(logs, Mentioning(DOWNSTREAM_TERMS)), Backed(DownstreamServiceFailure, Medium, ev)),
     (SomeLog(logs, ResourceLog), Backed(ResourceExhaustion, High, ev)),
     (SomeLog(logs, Mentioning(MQ_TERMS)), Backed(MqConsumerError, High, ev)),
     (SomeLog(logs, Mentioning(CONFIGURATION_TERMS)), Backed(ApplicationErrorSpike, High, ev)),
     (SomeLog(logs, Mentioning(DEPLOYMENT_TERMS)), Backed(RecentDeploymentRegression, High, ev))]
  }

  function LogCauses(ev: Evidence): seq<Hypothesis>
  {
    Applicable(LogRules(ev))
  }

  function MetricCauses(incident: Incident, ev: Evidence): seq<Hypothesis>
  {
    var metric, current, baseline := ev.content.metric, ev.content.Current(), ev.content.baseline;
    if metric == POOL_METRIC && current > 0.9 then [Backed(ConnectionPoolExhausted, High, ev)]
    else if metric == "latency_p95" && incident.service == "order-service" && current > baseline * 5.0 then
      [Backed(DatabaseSlowQuery, Medium, ev)]
    else if metric == "latency_p95" && Contains(incident.service, "inventory") && current > baseline * 5.0 then
      [Backed(RedisTimeout, Medium, ev)]
    else if metric == "latency_p95" && Contains(incident.service, "payment") && current > baseline * 5.0 then
      [Backed(DownstreamServiceFailure, Medium, ev)]
    else if (metric == "http_pool_active_ratio" || metric == "jvm_thread_pool_active_ratio") && current > 0.9 then
      [Backed(ResourceExhaustion, High, ev)]
    else if metric == "redis_latency_p95" && current > Max(baseline * 5.0, 500.0) then [Backed(RedisTimeout, High, ev)]
    else if metric == "downstream_latency_p95" && current > Max(baseline * 5.0, 1000.0) then
      [Backed(DownstreamServiceFailure, High, ev)]
    else if metric == "mq_lag" && current > Max(baseline * 10.0, 5000.0) then [Backed(MqConsumerError, High, ev)]
    else if metric == "error_rate" && current > 0.05 then [Backed(ApplicationErrorSpike, Medium, ev)]
    else []
  }

  /** Whether a deployment time lies within the last four hours. */
  type Recent = string -> bool

  function RecentOnes(recent: Recent): Deployment -> bool
  {
    (d: Deployment) => recent(d.deployedAt)
  }

  function DeploymentCauses(ev: Evidence, recent: Recent): seq<Hypothesis>
  {
    var latest := Filter(ev.content.deployments, RecentOnes(recent));
    if latest == [] then []
    else
      var faulty := ContainsAny(Lower(latest[0].changes), ["null", "npe", "exception", "error"]);
      [Backed(RecentDeploymentRegression, if faulty then High else Low, ev)]
  }

  function Causes(incident: Incident, ev: Evidence, recent: Recent): seq<Hypothesis>
  {
    match ev.source
    case QueryLogs => LogCauses(ev)
    case QueryMetrics => MetricCauses(incident, ev)
    case QueryDeployments => DeploymentCauses(ev, recent)
    case _ => []
  }

  /** The order-service latency rule divides by the baseline to word its summary. */
  predicate DividesByZero(incident: Incident, ev: Evidence)
  {
    ev.source == QueryMetrics && ev.content.metric == "latency_p95" && incident.service == "order-service" &&
    ev.content.baseline == 0.0 && ev.content.Current() > 0.0
  }

  function RuleFor(incident: Incident, recent: Recent): Evidence -> seq<Hypothesis>
  {
    (ev: Evidence) => Causes(incident, ev, recent)
  }

  function StopsOn(incident: Incident): Evidence -> bool
  {
    (ev: Evidence) => DividesByZero(incident, ev)
  }

  function AllCauses(incident: Incident, evidence: seq<Evidence>, recent: Recent): seq<Hypothesis>
  {
    FlatMap(evidence, RuleFor(incident, recent))
  }

  // ---------- Hypotheses ----------

  function ConfidenceOrder(): Hypothesis -> real
  {
    (h: Hypothesis) => (3 - Score(h.confidence)) as real
  }

  predicate MoreConfident(c: Confidence, d: Confidence)
  {
    (c == High && d != High) || (c == Medium && d == Low)
  }

  function With(c: Confidence): Hypothesis -> bool
  {
    (h: Hypothesis) => h.confidence == c
  }

  /** The three most confident causes: nothing left out is more confident than a kept one,
      the kept ones come in order of confidence, and of equal ones the first are kept, in
      input order. */
  ghost predicate KeepsMostConfident(hs: seq<Hypothesis>, kept: seq<Hypothesis>)
  {
    && |kept| == (if |hs| < 3 then |hs| else 3)
    && (forall h :: multiset(kept)[h] <= multiset(hs)[h])
    && (forall d, k | LeftOut(hs, kept, d) && k in kept :: !MoreConfident(d.confidence, k.confidence))
    && (forall i, j :: 0 <= i < j < |kept| ==> !MoreConfident(kept[j].confidence, kept[i].confidence))
    && (forall c :: Filter(kept, With(c)) <= Filter(hs, With(c)))
  }

  lemma ConfidenceOrders(g: Hypothesis, h: Hypothesis)
    ensures ConfidenceOrder()(g) < ConfidenceOrder()(h) <==> MoreConfident(g.confidence, h.confidence)
  {}

  lemma FirstOfConfidence(hs: seq<Hypothesis>, kept: seq<Hypothesis>, c: Confidence)
    requires KeepsFirst(hs, kept, ConfidenceOrder(), (3 - Score(c)) as real)
    ensures Filter(kept, With(c)) <= Filter(hs, With(c))
  {
    FilterSame(kept, WithKey(ConfidenceOrder(), (3 - Score(c)) as real), With(c));
    FilterSame(hs, WithKey(ConfidenceOrder(), (3 - Score(c)) as real), With(c));
  }

  lemma {:induction false} SortKeepsMostConfident(hs: seq<Hypothesis>)
    ensures KeepsMostConfident(hs, Cut(Sort(hs, ConfidenceOrder())))
  {
    var kept := Cut(Sort(hs, ConfidenceOrder()));
    SortFacts(hs, ConfidenceOrder());
    PrefixKeepsLeast(hs, kept, ConfidenceOrder());
    forall d, k | LeftOut(hs, kept, d) && k in kept ensures !MoreConfident(d.confidence, k.confidence)
    {
      ConfidenceOrders(d, k);
    }
    forall i, j | 0 <= i < j < |kept| ensures !MoreConfident(kept[j].confidence, kept[i].confidence)
    {
      ConfidenceOrders(kept[j], kept[i]);
    }
    forall c ensures Filter(kept, With(c)) <= Filter(hs, With(c))
    {
      FirstOfConfidence(hs, kept, c);
    }
  }

  function FirstSupported(hs: seq<Hypothesis>): (i: nat)
    ensures i <= |hs|
    ensures i < |hs| ==> hs[i].supporting != []
  {
    if hs == [] then 0
    else
      var i := FirstSupported(hs[..|hs| - 1]);
      if i < |hs| - 1 then i else if hs[|hs| - 1].supporting != [] then |hs| - 1 else |hs|
  }

  /** An unsupported first cause trades places with the first supported one. */
  function SwapUnsupported(hs: seq<Hypothesis>): seq<Hypothesis>
  {
    if |hs| > 1 && hs[0].supporting == [] && FirstSupported(hs) < |hs| then
      var i := FirstSupported(hs);
      hs[0 := hs[i]][i := hs[0]]
    else hs
  }

  function TopThree(incident: Incident, evidence: seq<Evidence>, recent: Recent): seq<Hypothesis>
  {
    var merged := RemoveContradicted(Merge(Rules, AllCauses(incident, evidence, recent)), evidence);
    SwapUnsupported(Ranked(Cut(Sort(merged, ConfidenceOrder()))))
  }

  function Hypotheses(incident: Incident, evidence: seq<Evidence>, recent: Recent): seq<Hypothesis>
  {
    if evidence == [] then [UnknownCause("Insufficient evidence collected")]
    else if TopThree(incident, evidence, recent) == [] then [UnknownCause("No matching evidence patterns found")]
    else TopThree(incident, evidence, recent)
  }

  /** Runs the rules over the evidence, or stops where a rule raises. */
  method ApplyRules(evidence: seq<Evidence>, rule: Evidence -> seq<Hypothesis>, stopsOn: Evidence -> bool)
    returns (raised: bool, found: seq<Hypothesis>)
    ensures raised <==> exists e | e in evidence :: stopsOn(e)
    ensures !raised ==> found == FlatMap(evidence, rule)
  {
    found := [];
    for i := 0 to |evidence|
      invariant found == FlatMap(evidence[..i], rule)
      invariant forall k :: 0 <= k < i ==> !stopsOn(evidence[k])
    {
      if stopsOn(evidence[i]) {
        assert evidence[i] in evidence;
        return true, found;
      }
      assert evidence[..i + 1][..i] == evidence[..i];
      found := found + rule(evidence[i]);
    }
    assert evidence[..|evidence|] == evidence;
    return false, found;
  }

  /** Ranks the merged causes and keeps three, a supported one first. */
  method SelectTop(merged: seq<Hypothesis>) returns (top: seq<Hypothesis>)
    ensures top == SwapUnsupported(Ranked(Cut(Sort(merged, ConfidenceOrder()))))
    ensures KeepsMostConfident(merged, Cut(Sort(merged, ConfidenceOrder())))
  {
    SortKeepsMostConfident(merged);
    top := Ranked(Cut(Sort(merged, ConfidenceOrder())));
    if |top| > 1 && top[0].supporting == [] {
      var i := FirstSupported(top);
      if i < |top| {
        top := top[0 := top[i]][i := top[0]];
      }
    }
  }

  method BuildHypotheses(state: AgentState, recent: Recent) returns (raised: bool)
    modifies state`hypotheses
    ensures raised <==> exists e | e in state.evidence :: DividesByZero(state.incident, e)
    ensures !raised ==> state.hypotheses == Hypotheses(state.incident, state.evidence, recent)
  {
    if state.evidence == [] {
      state.hypotheses := [UnknownCause("Insufficient evidence collected")];
      return false;
    }
    var found;
    raised, found := ApplyRules(state.evidence, RuleFor(state.incident, recent), StopsOn(state.incident));
    assert raised <==> exists e | e in state.evidence :: StopsOn(state.incident)(e);
    if raised {
      return;
    }
    var merged := MergeHypotheses(Rules, found);
    merged := RemoveContradicted(merged, state.evidence);
    var top := SelectTop(merged);
    assert top == TopThree(state.incident, state.evidence, recent);
    if top == [] {
      top := [UnknownCause("No matching evidence patterns found")];
    }
    state.hypotheses := top;
  }

  // ---------- Verification against deployments ----------

  function Doubt(h: Hypothesis, id: string): Hypothesis
  {
    if h.code == RecentDeploymentRegression
    then h.(contradicting := h.contradicting + [id], confidence := Low,
            summary := h.summary + " [No recent deployments found to support this]")
    else h
  }

  function DoubtAll(hs: seq<Hypothesis>, id: string): seq<Hypothesis>
  {
    seq(|hs|, i requires 0 <= i < |hs| => Doubt(hs[i], id))
  }

  predicate QuietDeployments(ev: Evidence, recent: Recent)
  {
    ev.source == QueryDeployments && Filter(ev.content.deployments, RecentOnes(recent)) == []
  }

  function Verified(hs: seq<Hypothesis>, evidence: seq<Evidence>, recent: Recent): (r: seq<Hypothesis>)
    ensures |r| == |hs|
  {
    if evidence == [] then hs
    else
      var so, ev := Verified(hs, evidence[..|evidence| - 1], recent), evidence[|evidence| - 1];
      if QuietDeployments(ev, recent) then DoubtAll(so, ev.id) else so
  }

  method VerifyHypotheses(state: AgentState, recent: Recent)
    modifies state`hypotheses
    ensures state.hypotheses == Verified(old(state.hypotheses), state.evidence, recent)
  {
    ghost var start := state.hypotheses;
    for k := 0 to |state.evidence|
      invariant state.hypotheses == Verified(start, state.evidence[..k], recent)
    {
      assert state.evidence[..k + 1][..k] == state.evidence[..k];
      var ev := state.evidence[k];
      if QuietDeployments(ev, recent) {
        ghost var before := state.hypotheses;
        for i := 0 to |state.hypotheses|
          invariant |state.hypotheses| == |before|
          invariant forall j :: 0 <= j < i ==> state.hypotheses[j] == Doubt(before[j], ev.id)
          invariant forall j :: i <= j < |before| ==> state.hypotheses[j] == before[j]
        {
          if state.hypotheses[i].code == RecentDeploymentRegression {
            var h := state.hypotheses[i];
            state.hypotheses := state.hypotheses[i := h.(
              contradicting := h.contradicting + [ev.id],
              confidence := Low,
              summary := h.summary + " [No recent deployments found to support this]")];
          }
        }
        assert state.hypotheses == DoubtAll(before, ev.id);
      }
    }
    assert state.evidence[..|state.evidence|] == state.evidence;
  }

  // ---------- The report ----------

  function KnownActions(code: Cause): seq<string>
  {
    match code
    case DatabaseSlowQuery => [
      "Check for missing database indexes (EXPLAIN ANALYZE on slow queries)",
      "Review query execution plans and optimize N+1 queries"]
    case ConnectionPoolExhausted => [
      "Increase HikariCP maximum pool size",
      "Check for connection leaks (long-running transactions)",
      "Review slow queries holding connections"]
    case RedisTimeout => [
      "Check Redis server health and memory usage",
      "Increase connection pool size (spring.redis.pool.max-active)",
      "Review for slow Redis commands (KEYS, large value scans)"]
    case DownstreamServiceFailure => [
      "Check downstream service health endpoints",
      "Verify circuit breaker configuration and fallback behavior",
      "Review downstream service logs for root cause"]
    case RecentDeploymentRegression => [
      "Review recent deployment changes (git diff)",
      "Consider rollback if regression confirmed",
      "Check configuration changes in the deployment"]
    case ApplicationErrorSpike => [
      "Review application logs for error patterns",
      "Check resource utilization (CPU, memory, threads)"]
    case ResourceExhaustion => [
      "Check thread pools, HTTP client pools, and rate-limit/circuit-breaker settings",
      "Reduce saturation or raise pool limits after validating traffic demand"]
    case MqConsumerError => [
      "Check consumer error logs and message backlog",
      "Scale consumers or inspect poison messages blocking progress"]
    case _ => []
  }

  function Advice(): Hypothesis -> seq<string>
  {
    (h: Hypothesis) => KnownActions(h.code)
  }

  function ActionsFor(hs: seq<Hypothesis>): seq<string>
  {
    FlatMap(hs, Advice())
  }

  function Actions(hs: seq<Hypothesis>): seq<string>
  {
    if Unique(ActionsFor(hs)) == [] then ["Gather more evidence - current data insufficient for confident diagnosis"]
    else Unique(ActionsFor(hs))
  }

  function FinalCauses(incident: Incident, evidence: seq<Evidence>, built: Recent, verified: Recent): seq<Hypothesis>
  {
    Validated(Verified(Hypotheses(incident, evidence, built), evidence, verified), evidence)
  }

  function ReportOf(incident: Incident, evidence: seq<Evidence>, failures: seq<string>, calls: nat, built: Recent,
                    verified: Recent): Report
  {
    var hs := FinalCauses(incident, evidence, built, verified);
    Report(incident.id, Verdict(hs, true), hs, Actions(hs), failures, CitedIds(hs), evidence, |Plan(incident)|, calls)
  }

  method GenerateReport(state: AgentState)
    modifies state`finalReport, state`incidentStatus
    ensures var hs := state.hypotheses;
            state.finalReport == Some(Report(state.incident.id, Verdict(hs, AllCited(hs, EvidenceIds(state.evidence))),
                                             hs, Actions(hs), state.toolFailures,
                                             CitedIds(hs), state.evidence, |state.plan|, state.toolCallsUsed))
    ensures state.incidentStatus == if state.finalReport.value.status == Diagnosed then IncidentDiagnosed
            else IncidentInconclusive
  {
    var hs := state.hypotheses;
    var traceability := ValidateTraceability(hs, state.evidence);
    var status := Verdict(hs, traceability.fullyTraceable);
    state.finalReport := Some(Report(state.incident.id, status, hs, Actions(hs), state.toolFailures,
                                     CitedIds(hs), state.evidence, |state.plan|, state.toolCallsUsed));
    state.incidentStatus := if status == Diagnosed then IncidentDiagnosed else IncidentInconclusive;
  }

  // ---------- Whole runs ----------

  function Executed(incident: Incident, maxCalls: int): seq<PlanStep>
  {
    Plan(incident)[..Affordable(Plan(incident), TopologyCalls(maxCalls), maxCalls)]
  }

  function CollectedEvidence(incident: Incident, maxCalls: int, tools: Tools): seq<Evidence>
  {
    Gathered(tools, TopologyCalls(maxCalls), Executed(incident, maxCalls))
  }

  function RecordedFailures(incident: Incident, maxCalls: int, tools: Tools): seq<string>
  {
    Failures(tools, TopologyCalls(maxCalls), Executed(incident, maxCalls)) +
    (if |Executed(incident, maxCalls)| < |Plan(incident)| then [EXHAUSTED] else [])
  }

  function CallsMade(incident: Incident, maxCalls: int): nat
  {
    TopologyCalls(maxCalls) + |Executed(incident, maxCalls)|
  }

  /** Load topology, plan, collect. The topology answer is not used afterwards. */
  method Investigate(incident: Incident, maxCalls: int, tools: Tools) returns (state: AgentState)
    ensures fresh(state) && state.incident == incident && state.plan == Plan(incident)
    ensures state.evidence == CollectedEvidence(incident, maxCalls, tools)
    ensures state.toolFailures == RecordedFailures(incident, maxCalls, tools)
    ensures state.toolCallsUsed == CallsMade(incident, maxCalls)
  {
    state := new AgentState(incident, maxCalls);
    state.LoadIncident();
    if !(state.toolCallsUsed >= maxCalls) {
      var topology := tools(state.toolCallsUsed, AskMetric(incident.service, "request_rate"));
      state.toolCallsUsed := state.toolCallsUsed + 1;
    }
    state.plan := Plan(incident);
    state.CollectEvidence(tools);
  }

  /** The second half of a run: everything after evidence collection. */
  method Conclude(state: AgentState, built: Recent, verified: Recent) returns (raised: bool)
    modifies state`hypotheses, state`finalReport, state`incidentStatus
    ensures raised <==> exists e | e in state.evidence :: DividesByZero(state.incident, e)
    ensures !raised && |state.plan| == |Plan(state.incident)| ==>
              state.finalReport == Some(ReportOf(state.incident, state.evidence, state.toolFailures,
                                                 state.toolCallsUsed, built, verified))
  {
    raised := BuildHypotheses(state, built);
    if raised {
      return;
    }
    VerifyHypotheses(state, verified);
    ghost var before := state.hypotheses;
    state.ValidateEvidence();
    ValidationEstablishes(before, state.evidence);
    GenerateReport(state);
  }

  predicate Stops(incident: Incident, evidence: seq<Evidence>)
  {
    exists e | e in evidence :: DividesByZero(incident, e)
  }

  /** One run; None when it stops on the division by zero. */
  method Diagnose(incident: Incident, maxCalls: int, tools: Tools, built: Recent, verified: Recent)
      returns (report: Option<Report>)
    ensures var evidence := CollectedEvidence(incident, maxCalls, tools);
            report == if Stops(incident, evidence) then None
                      else Some(ReportOf(incident, evidence, RecordedFailures(incident, maxCalls, tools),
                                         CallsMade(incident, maxCalls), built, verified))
  {
    var state := Investigate(incident, maxCalls, tools);
    var raised := Conclude(state, built, verified);
    report := if raised then None else state.finalReport;
  }

  // ---------- Theorems ----------

  lemma {:induction false} VerifiedCodes(hs: seq<Hypothesis>, evidence: seq<Evidence>, recent: Recent)
    ensures Codes(Verified(hs, evidence, recent)) == Codes(hs)
  {
    if evidence != [] {
      VerifiedCodes(hs, evidence[..|evidence| - 1], recent);
    }
  }

  lemma {:induction false} SortedCodes(hs: seq<Hypothesis>, code: Cause)
    requires code !in Codes(hs)
    ensures code !in Codes(SwapUnsupported(Ranked(Cut(Sort(hs, ConfidenceOrder())))))
  {
    var sorted := Sort(hs, ConfidenceOrder());
    var top := Ranked(Cut(sorted));
    CodesMember(hs, code);
    forall k | 0 <= k < |top| ensures top[k].code != code
    {
      SortMember(hs, ConfidenceOrder(), k);
      assert sorted[k] in hs;
    }
    SwapKeepsOut(top, code);
  }

  lemma SwapKeepsOut(hs: seq<Hypothesis>, code: Cause)
    requires forall k :: 0 <= k < |hs| ==> hs[k].code != code
    ensures code !in Codes(SwapUnsupported(hs))
  {
    var r := SwapUnsupported(hs);
    forall i | 0 <= i < |r| ensures r[i].code != code {}
  }

  /** A report names one to three causes, ranked 1..n, supported ones first; every cited
      id was collected and is listed; the status is Diagnosed exactly when the first cause
      has support and is not Low. */
  ghost predicate TraceableReport(r: Report)
  {
    && 1 <= |r.topCauses| <= 3
    && RankedInOrder(r.topCauses) && SupportOrdered(r.topCauses)
    && (forall h, id | h in r.topCauses && id in h.supporting + h.contradicting ::
          id in r.evidenceIds && id in EvidenceIds(r.evidenceDetails))
    && (r.status == Diagnosed <==> r.topCauses[0].supporting != [] && r.topCauses[0].confidence != Low)
    && r.status != Failed
  }

  lemma CitedListed(hs: seq<Hypothesis>, ids: set<string>)
    requires AllCited(hs, ids)
    ensures forall h, id | h in hs && id in h.supporting + h.contradicting :: id in CitedIds(hs) && id in ids
  {
    forall h, id | h in hs && id in h.supporting + h.contradicting ensures id in CitedIds(hs) && id in ids
    {
      assert Cited(h, ids);
    }
  }

  lemma FinalCausesCount(incident: Incident, evidence: seq<Evidence>, built: Recent, verified: Recent)
    ensures var top := FinalCauses(incident, evidence, built, verified);
            1 <= |top| <= 3 && RankedInOrder(top) && SupportOrdered(top) && AllCited(top, EvidenceIds(evidence))
  {
    ValidationEstablishes(Verified(Hypotheses(incident, evidence, built), evidence, verified), evidence);
  }

  lemma ReportTraceable(incident: Incident, evidence: seq<Evidence>, failures: seq<string>, calls: nat, built: Recent,
                        verified: Recent)
    ensures TraceableReport(ReportOf(incident, evidence, failures, calls, built, verified))
  {
    var top := FinalCauses(incident, evidence, built, verified);
    FinalCausesCount(incident, evidence, built, verified);
    CitedListed(top, EvidenceIds(evidence));
  }

  /** Every report is traceable to the evidence collected in the same run, and the tool
      calls stay within the budget and are all accounted for. */
  lemma ReportsAreTraceable(incident: Incident, maxCalls: int, tools: Tools, built: Recent, verified: Recent)
    ensures var evidence, failures := CollectedEvidence(incident, maxCalls, tools),
            RecordedFailures(incident, maxCalls, tools);
            var r := ReportOf(incident, evidence, failures, CallsMade(incident, maxCalls), built, verified);
            && TraceableReport(r) && r.evidenceDetails == evidence
            && r.totalToolCalls <= Budget(maxCalls)
            && |r.evidenceDetails| + |r.toolFailures| ==
               r.totalToolCalls - TopologyCalls(maxCalls) +
                 (if |Executed(incident, maxCalls)| < r.investigationSteps then 1 else 0)
  {
    ReportTraceable(incident, CollectedEvidence(incident, maxCalls, tools), RecordedFailures(incident, maxCalls, tools),
                    CallsMade(incident, maxCalls), built, verified);
    CallsAccountedFor(tools, TopologyCalls(maxCalls), Executed(incident, maxCalls));
  }

  lemma PoolNotInTop(incident: Incident, evidence: seq<Evidence>, built: Recent)
    requires PoolIsLow(evidence)
    ensures ConnectionPoolExhausted !in Codes(TopThree(incident, evidence, built))
  {
    var merged := Merge(Rules, AllCauses(incident, evidence, built));
    PoolRemoved(merged, evidence);
    SortedCodes(RemoveContradicted(merged, evidence), ConnectionPoolExhausted);
  }

  lemma PoolNotBuilt(incident: Incident, evidence: seq<Evidence>, built: Recent)
    requires PoolIsLow(evidence)
    ensures ConnectionPoolExhausted !in Codes(Hypotheses(incident, evidence, built))
  {
    PoolNotInTop(incident, evidence, built);
  }

  /** Negative evidence is final here too. */
  lemma PoolMetricIsFinal(incident: Incident, evidence: seq<Evidence>, failures: seq<string>, calls: nat, built: Recent,
                          verified: Recent)
    requires exists e | e in evidence ::
               e.source == QueryMetrics && e.content.metric == "db_pool_active_ratio" &&
               e.content.current.Some? && e.content.current.value < 0.7
    ensures forall h | h in ReportOf(incident, evidence, failures, calls, built, verified).topCauses ::
            h.code != ConnectionPoolExhausted
  {
    assert PoolIsLow(evidence);
    var hs := Hypotheses(incident, evidence, built);
    PoolNotBuilt(incident, evidence, built);
    VerifiedCodes(hs, evidence, verified);
    ValidationEstablishes(Verified(hs, evidence, verified), evidence);
  }

  /** The run does stop for some inputs: one order-service latency reading without a baseline. */
  lemma StopsWithoutBaseline(incident: Incident, tools: Tools, reading: real)
    requires incident.service == "order-service" && incident.alertType == P95LatencyHigh && reading > 0.0
    requires tools(1, AskMetric(incident.service, "latency_p95")) ==
             ToolResult("METRIC-1", Content([], "latency_p95", Some(reading), 0.0, []), true, "")
    ensures Stops(incident, CollectedEvidence(incident, 10, tools))
  {
    var steps := Executed(incident, 10);
    assert steps == Plan(incident);
    var ev := Evidence("METRIC-1", QueryMetrics, Content([], "latency_p95", Some(reading), 0.0, []));
    var step := AskMetric(incident.service, "latency_p95");
    GatheredOne(tools, 1, step);
    assert steps[..1] == [step];
    GatheredPrefix(tools, 1, steps, 1);
    assert Gathered(tools, 1, steps)[0] == ev;
    assert DividesByZero(incident, ev);
  }

  lemma {:induction false} GatheredOne(tools: Tools, used: nat, step: PlanStep)
    requires tools(used, step).success
    ensures Gathered(tools, used, [step]) ==
            [Evidence(tools(used, step).evidenceId, step.tool, tools(used, step).content)]
  {
    assert [step][..0] == [];
    assert used + 0 == used;
  }

  lemma {:induction false} GatheredPrefix(tools: Tools, used: nat, steps: seq<PlanStep>, k: nat)
    requires k <= |steps|
    ensures Gathered(tools, used, steps[..k]) <= Gathered(tools, used, steps)
  {
    if k == |steps| {
      assert steps[..k] == steps;
    } else {
      GatheredPrefix(tools, used, steps[..|steps| - 1], k);
      assert steps[..|steps| - 1][..k] == steps[..k];
    }
  }
}
