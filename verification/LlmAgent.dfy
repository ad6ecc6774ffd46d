/** The LLM agent: three LLM replies, each merged with deterministic guard-rails
    (python/app/agent/llm_graph.py). The replies and the tools' answers are
    arbitrary values; what the agent reports must hold for all of them. */
module LlmAgent {
  import opened Collections
  import opened StableSort
  import opened Domain
  import opened Text
  import opened Governance
  import opened Merging
  import opened Investigation

  // ---------- LLM replies ----------

  /** A plan reply: a list of items (or a dict holding one), or something else. */
  datatype PlanReply = PlanItems(items: seq<PlanStep>) | NoPlan

  /** The evidence ids are None when the reply holds something that is not a list. */
  datatype HypothesisItem = HypothesisItem(
    code: Cause, confidence: string, summary: string,
    supporting: Option<seq<string>>, contradicting: Option<seq<string>>)

  datatype HypothesesReply = HypothesisItems(items: seq<HypothesisItem>) | NoHypotheses

  /** status is None for every text but the three known ones. */
  datatype ReportReply = ReportBody(status: Option<Status>, actions: seq<string>) | NoReport

  // ---------- Planning ----------

  function Step(tool: Tool, texts: map<string, string>, words: seq<string>): PlanStep
  {
    PlanStep(tool, texts, if words == [] then map[] else map["keywords" := words])
  }

  function MetricStep(service: string, metric: string): PlanStep
  {
    Step(QueryMetrics, map["service" := service, "metric" := metric], [])
  }

  function RuleBasedPlan(incident: Incident): seq<PlanStep>
  {
    var s := incident.service;
    match incident.alertType
    case P95LatencyHigh => [
      MetricStep(s, "latency_p95"),
      MetricStep(s, POOL_METRIC),
      Step(QueryLogs, map["service" := s], ["slow", "timeout"]),
      Step(QueryDeployments, map["service" := s], [])]
    case ErrorRateHigh => [
      Step(QueryLogs, map["service" := s], ["error", "exception"]),
      MetricStep(s, "error_rate"),
      Step(QueryDeployments, map["service" := s], [])]
    case ThroughputLow => [
      MetricStep(s, "request_rate"),
      Step(QueryLogs, map["service" := s], ["timeout", "blocked"])]
    case MqLagHigh => [
      MetricStep(s, "mq_lag"),
      Step(QueryLogs, map["service" := s], ["consumer", "error"])]
  }

  function KnownTool(): PlanStep -> bool
  {
    (step: PlanStep) => !step.tool.OtherTool?
  }

  function LlmSteps(reply: PlanReply): seq<PlanStep>
  {
    match reply case PlanItems(items) => Filter(Take(items, 4), KnownTool()) case NoPlan => []
  }

  function Plan(incident: Incident, reply: PlanReply, maxCalls: int): seq<PlanStep>
  {
    var chosen := if LlmSteps(reply) == [] then RuleBasedPlan(incident) else LlmSteps(reply);
    Take(FirstOccurrences(RuleBasedPlan(incident) + chosen, StepKeys()), Budget(maxCalls))
  }

  method CreatePlan(state: AgentState, reply: PlanReply)
    modifies state`plan
    ensures state.plan == Plan(state.incident, reply, state.maxToolCalls)
  {
    var steps: seq<PlanStep> := [];
    var items := match reply case PlanItems(items) => Take(items, 4) case NoPlan => [];
    for i := 0 to |items|
      invariant steps == Filter(items[..i], KnownTool())
    {
      assert items[..i + 1][..i] == items[..i];
      if !items[i].tool.OtherTool? {
        steps := steps + [items[i]];
      }
    }
    assert items[..|items|] == items;
    if steps == [] {
      steps := RuleBasedPlan(state.incident);
    }
    state.plan := MergeRequiredSteps(steps, RuleBasedPlan(state.incident), state.maxToolCalls);
  }

  lemma RequiredDistinct(incident: Incident)
    ensures DistinctKeys(RuleBasedPlan(incident), StepKeys()) && |RuleBasedPlan(incident)| <= 4
  {
    var s := incident.service;
    assert KeyOf(MetricStep(s, "latency_p95")) == ByMetric(s, "latency_p95");
    assert KeyOf(MetricStep(s, POOL_METRIC)) == ByMetric(s, POOL_METRIC);
    assert "latency_p95" != POOL_METRIC;
  }

  /** The rule-based steps are pairwise different requests, so with a budget of
      at least four calls every plan starts with all of them, whatever the LLM says. */
  lemma PlanKeepsRequiredEvidence(incident: Incident, reply: PlanReply, maxCalls: int)
    requires maxCalls >= 4
    ensures RuleBasedPlan(incident) <= Plan(incident, reply, maxCalls)
  {
    var required := RuleBasedPlan(incident);
    var chosen := if LlmSteps(reply) == [] then required else LlmSteps(reply);
    RequiredDistinct(incident);
    FirstOccurrencesOfDistinct(required, StepKeys());
    RequiredStepsFirst(chosen, required, maxCalls);
  }

  // ---------- Hypotheses ----------

  function ParseConfidence(text: string): Confidence
  {
    if Upper(text) == "HIGH" then High else if Upper(text) == "MEDIUM" then Medium else Low
  }

  function OrEmpty(ids: Option<seq<string>>): seq<string>
  {
    match ids case Some(v) => v case None => []
  }

  function ParseHypothesis(item: HypothesisItem): Hypothesis
  {
    Hypothesis(item.code, ParseConfidence(item.confidence), OrEmpty(item.supporting), OrEmpty(item.contradicting),
               item.summary, 0)
  }

  function ParseHypotheses(reply: HypothesesReply): seq<Hypothesis>
  {
    match reply
    case NoHypotheses => []
    case HypothesisItems(items) =>
      var top := Take(items, 3);
      seq(|top|, i requires 0 <= i < |top| => ParseHypothesis(top[i]))
  }

  predicate MentionsSlow(logs: seq<string>)
  {
    exists i | 0 <= i < |logs| :: Contains(Lower(logs[i]), "slow")
  }

  predicate MentionsExhaustion(logs: seq<string>)
  {
    exists i | 0 <= i < |logs| :: IsPoolExhaustionLog(logs[i])
  }

  function Backed(code: Cause, ev: Evidence, summary: string): Hypothesis
  {
    Hypothesis(code, High, [ev.id], [], summary, 0)
  }

  /** The guard-rail hypotheses one piece of evidence gives rise to. */
  function Rule(incident: Incident, ev: Evidence): seq<Hypothesis>
  {
    match ev.source
    case QueryLogs =>
      (if MentionsSlow(ev.content.logs) then [Backed(DatabaseSlowQuery, ev, "Slow query patterns detected in logs")]
       else []) +
      (if MentionsExhaustion(ev.content.logs)
       then [Backed(ConnectionPoolExhausted, ev, "Connection pool issues in logs")] else [])
    case QueryMetrics =>
      var current, baseline := ev.content.Current(), ev.content.baseline;
      if ev.content.metric == POOL_METRIC && current > 0.9 then [Backed(ConnectionPoolExhausted, ev, "DB pool usage")]
      else if ev.content.metric == "latency_p95" && baseline != 0.0 &&
        current > Max(baseline * 5.0, incident.threshold) then
        [Backed(DatabaseSlowQuery, ev, "P95 latency above baseline")]
      else []
    case _ => []
  }

  function Rules(incident: Incident, evidence: seq<Evidence>): seq<Hypothesis>
  {
    if evidence == [] then []
    else Rules(incident, evidence[..|evidence| - 1]) + Rule(incident, evidence[|evidence| - 1])
  }

  function Guardrails(incident: Incident, evidence: seq<Evidence>): seq<Hypothesis>
  {
    if Rules(incident, evidence) == [] then [UnknownCause("No matching patterns found")]
    else Cut(Rules(incident, evidence))
  }

  method RuleBasedHypotheses(incident: Incident, evidence: seq<Evidence>) returns (hs: seq<Hypothesis>)
    ensures hs == Guardrails(incident, evidence)
  {
    hs := [];
    for i := 0 to |evidence|
      invariant hs == Rules(incident, evidence[..i])
    {
      assert evidence[..i + 1][..i] == evidence[..i];
      hs := hs + Rule(incident, evidence[i]);
    }
    assert evidence[..|evidence|] == evidence;
    if hs == [] {
      hs := [UnknownCause("No matching patterns found")];
    }
    hs := Cut(hs);
  }

  function Hypotheses(incident: Incident, evidence: seq<Evidence>, reply: HypothesesReply): seq<Hypothesis>
  {
    if evidence == [] then [UnknownCause("No evidence collected")]
    else Ranked(RemoveContradicted(MergeAndCut(Guardrails(incident, evidence) + ParseHypotheses(reply)), evidence))
  }

  method BuildHypotheses(state: AgentState, reply: HypothesesReply)
    modifies state`hypotheses
    ensures state.hypotheses == Hypotheses(state.incident, state.evidence, reply)
  {
    if state.evidence == [] {
      state.hypotheses := [UnknownCause("No evidence collected")];
      return;
    }
    var llm := ParseHypotheses(reply);
    var guardrails := RuleBasedHypotheses(state.incident, state.evidence);
    var merged;
    if llm == [] {
      assert guardrails + llm == guardrails;
      merged := MergeRankCut(guardrails);
    } else {
      merged := MergeRankCut(guardrails + llm);
    }
    merged := RemoveContradicted(merged, state.evidence);
    state.hypotheses := Ranked(merged);
  }

  // ---------- Recommended actions ----------

  predicate MentionsPool(action: string)
  {
    Contains(Lower(action), "connection pool") || Contains(Lower(action), "hikaricp")
  }

  function Category(action: string): string
  {
    var text := Lower(action);
    if Contains(text, "connection pool") || Contains(text, "hikaricp") then "connection_pool"
    else if Contains(text, "index") || Contains(text, "explain") then "database_index"
    else if Contains(text, "n+1") || Contains(text, "rewrite") then "query_optimization"
    else if Contains(text, "execution plan") || Contains(text, "optimize") || Contains(text, "slow-running sql")
      then "database_plan"
    else if Contains(text, "monitor") || Contains(text, "alert") then "monitoring"
    else ""
  }

  function KnownActions(code: Cause): seq<string>
  {
    match code
    case DatabaseSlowQuery => [
      "Check for missing database indexes (EXPLAIN ANALYZE on slow queries)",
      "Review query execution plans and optimize N+1 queries"]
    case ConnectionPoolExhausted => [
      "Increase HikariCP maximum pool size",
      "Check for connection leaks (long-running transactions)",
      "Review slow queries holding connections"]
    case RedisTimeout => ["Check Redis health", "Review slow commands"]
    case DownstreamServiceFailure => ["Check downstream health", "Verify circuit breaker"]
    case RecentDeploymentRegression => ["Review deployment changes", "Consider rollback"]
    case ApplicationErrorSpike => ["Review error logs", "Check resource usage"]
    case _ => []
  }

  const GATHER := "Gather more evidence"

  function Advice(): Hypothesis -> seq<string>
  {
    (h: Hypothesis) => KnownActions(h.code)
  }

  function ActionsFor(hs: seq<Hypothesis>): seq<string>
  {
    FlatMap(hs, Advice())
  }

  function RuleBasedActions(hs: seq<Hypothesis>): seq<string>
  {
    if Unique(ActionsFor(hs)) == [] then [GATHER] else Unique(ActionsFor(hs))
  }

  /** Whether a candidate is passed over; seen holds kept actions and their categories. */
  predicate Skipped(action: string, seen: set<string>, poolNamed: bool)
  {
    action == "" || action in seen || (!poolNamed && MentionsPool(action)) ||
      (Category(action) != "" && Category(action) in seen)
  }

  function SeenWith(seen: set<string>, action: string): set<string>
  {
    seen + {action} + (if Category(action) != "" then {Category(action)} else {})
  }

  function SeenOf(actions: seq<string>): set<string>
  {
    if actions == [] then {} else SeenWith(SeenOf(actions[..|actions| - 1]), actions[|actions| - 1])
  }

  function PoolNamed(hs: seq<Hypothesis>): bool
  {
    ConnectionPoolExhausted in Codes(hs)
  }

  /** What the merged list must be, given the candidates in order. */
  ghost predicate ActionList(actions: seq<string>, candidates: seq<string>, poolNamed: bool)
  {
    && |actions| <= 3
    && (forall a | a in actions :: a in candidates && a != "" && (MentionsPool(a) ==> poolNamed))
    && (forall i, j :: 0 <= i < j < |actions| ==> actions[i] != actions[j])
    && (forall i, j :: 0 <= i < j < |actions| && Category(actions[i]) != "" ==>
        Category(actions[i]) != Category(actions[j]))
    && (|actions| < 3 ==> forall c | c in candidates :: Skipped(c, SeenOf(actions), poolNamed))
  }

  lemma {:induction false} SeenMembers(actions: seq<string>)
    ensures forall a | a in actions :: a in SeenOf(actions) && (Category(a) != "" ==> Category(a) in SeenOf(actions))
  {
    if actions != [] {
      SeenMembers(actions[..|actions| - 1]);
      assert actions == actions[..|actions| - 1] + [actions[|actions| - 1]];
    }
  }

  /** Candidates are kept in order until three are found. */
  function Chosen(candidates: seq<string>, poolNamed: bool): seq<string>
  {
    if candidates == [] then []
    else
      var kept, next := Chosen(candidates[..|candidates| - 1], poolNamed), candidates[|candidates| - 1];
      if |kept| >= 3 || Skipped(next, SeenOf(kept), poolNamed) then kept else kept + [next]
  }

  lemma {:induction false} ChosenPrefix(first: seq<string>, rest: seq<string>, poolNamed: bool)
    ensures Chosen(first, poolNamed) <= Chosen(first + rest, poolNamed)
    ensures |Chosen(first, poolNamed)| >= 3 ==> Chosen(first + rest, poolNamed) == Chosen(first, poolNamed)
  {
    if rest == [] {
      assert first + rest == first;
    } else {
      ChosenPrefix(first, rest[..|rest| - 1], poolNamed);
      assert (first + rest)[..|first + rest| - 1] == first + rest[..|rest| - 1];
    }
  }

  lemma {:induction false} ChosenNext(candidates: seq<string>, i: nat, poolNamed: bool)
    requires i < |candidates|
    ensures var kept := Chosen(candidates[..i], poolNamed);
            Chosen(candidates[..i + 1], poolNamed) ==
            if |kept| >= 3 || Skipped(candidates[i], SeenOf(kept), poolNamed) then kept else kept + [candidates[i]]
  {
    assert candidates[..i + 1][..i] == candidates[..i];
  }

  lemma {:induction false} ChosenAtThree(candidates: seq<string>, i: nat, poolNamed: bool)
    requires i <= |candidates| && |Chosen(candidates[..i], poolNamed)| >= 3
    ensures Chosen(candidates, poolNamed) == Chosen(candidates[..i], poolNamed)
  {
    SplitAt(candidates, i);
    ChosenPrefix(candidates[..i], candidates[i..], poolNamed);
  }

  lemma {:induction false} SeenNext(actions: seq<string>, action: string)
    ensures SeenOf(actions + [action]) == SeenWith(SeenOf(actions), action)
  {
    assert (actions + [action])[..|actions|] == actions;
  }

  /** Keeps candidates in order until three are found. */
  method ChooseActions(candidates: seq<string>, poolNamed: bool) returns (actions: seq<string>)
    ensures actions == Chosen(candidates, poolNamed)
  {
    actions := [];
    var seen: set<string> := {};
    for i := 0 to |candidates|
      invariant |actions| < 3 && seen == SeenOf(actions) && actions == Chosen(candidates[..i], poolNamed)
    {
      var action := candidates[i];
      ChosenNext(candidates, i, poolNamed);
      if !Skipped(action, seen, poolNamed) {
        SeenNext(actions, action);
        actions := actions + [action];
        seen := SeenWith(seen, action);
        if |actions| >= 3 {
          ChosenAtThree(candidates, i + 1, poolNamed);
          return;
        }
      }
    }
    assert candidates[..|candidates|] == candidates;
  }

  method MergeActions(primary: seq<string>, secondary: seq<string>, hs: seq<Hypothesis>) returns (actions: seq<string>)
    ensures var chosen := Chosen(primary + secondary, PoolNamed(hs));
            actions == if chosen == [] then [GATHER] else chosen
  {
    actions := ChooseActions(primary + secondary, PoolNamed(hs));
    if actions == [] {
      actions := [GATHER];
    }
  }

  /** The chosen actions: at most three, no two alike or of one category, none
      about the connection pool unless that cause is reported, and with fewer
      than three every candidate left out has a reason. */
  lemma {:induction false} ChosenFacts(candidates: seq<string>, poolNamed: bool)
    ensures ActionList(Chosen(candidates, poolNamed), candidates, poolNamed)
  {
    if candidates != [] {
      var before, next := candidates[..|candidates| - 1], candidates[|candidates| - 1];
      ChosenFacts(before, poolNamed);
      var kept := Chosen(before, poolNamed);
      assert candidates == before + [next];
      if |kept| < 3 {
        ActionStep(kept, before, next, poolNamed);
      } else {
        assert forall c | c in before :: c in candidates;
      }
    }
  }

  lemma SkippedMono(c: string, seen: set<string>, more: set<string>, poolNamed: bool)
    requires Skipped(c, seen, poolNamed) && seen <= more
    ensures Skipped(c, more, poolNamed)
  {}

  lemma {:induction false} ActionStep(actions: seq<string>, before: seq<string>, action: string, poolNamed: bool)
    requires ActionList(actions, before, poolNamed) && |actions| < 3
    ensures Skipped(action, SeenOf(actions), poolNamed) ==> ActionList(actions, before + [action], poolNamed)
    ensures !Skipped(action, SeenOf(actions), poolNamed) ==>
            ActionList(actions + [action], before + [action], poolNamed)
  {
    forall c | c in before ensures c in before + [action] {}
    if !Skipped(action, SeenOf(actions), poolNamed) {
      var r := actions + [action];
      assert r[..|actions|] == actions;
      SeenMembers(actions);
      forall c | c in before + [action] ensures Skipped(c, SeenOf(r), poolNamed)
      {
        if c in before {
          SkippedMono(c, SeenOf(actions), SeenOf(r), poolNamed);
        }
      }
      forall i | 0 <= i < |actions| ensures actions[i] != action &&
        (Category(actions[i]) != "" ==> Category(actions[i]) != Category(action))
      {
        assert actions[i] in actions;
      }
    }
  }

  lemma GatherIsNeutral()
    ensures !MentionsPool(GATHER)
  {
    var text := Lower(GATHER);
    assert |text| == 20 && text[0] == 'g' && text[1] == 'a' && text[2] == 't' && text[3] == 'h' && text[4] == 'e' &&
           text[5] == 'r';
    forall i: nat | i <= |text| ensures !OccursAt(text, "connection pool", i)
    {
      if i + 15 <= 20 {
        assert text[i..i + 15][0] == text[i];
        assert "connection pool"[0] == 'c';
      }
    }
    forall i: nat | i <= |text| ensures !OccursAt(text, "hikaricp", i)
    {
      if i + 8 <= 20 {
        assert text[i..i + 8][0] == text[i] && text[i..i + 8][1] == text[i + 1];
        assert "hikaricp"[0] == 'h' && "hikaricp"[1] == 'i';
      }
    }
  }

  // ---------- The report ----------

  predicate HighWithSupport(hs: seq<Hypothesis>)
  {
    exists h | h in hs :: h.confidence == High && h.supporting != []
  }

  /** The LLM may replace the verdict, except to take back a Diagnosed one that
      some High-confidence, supported cause stands behind. */
  function FinalStatus(verdict: Status, hs: seq<Hypothesis>, reply: ReportReply): Status
  {
    match reply
    case ReportBody(Some(suggested), _) =>
      if verdict == Diagnosed && suggested != Diagnosed && HighWithSupport(hs) then verdict else suggested
    case _ => verdict
  }

  function ReplyActions(reply: ReportReply): seq<string>
  {
    match reply case ReportBody(_, actions) => actions case NoReport => []
  }

  function Actions(hs: seq<Hypothesis>, reply: ReportReply): seq<string>
  {
    var chosen := Chosen(RuleBasedActions(hs) + ReplyActions(reply), PoolNamed(hs));
    if chosen == [] then [GATHER] else chosen
  }

  /** The report of a run, from what was collected and what the LLM replied. */
  function ReportOf(
    incident: Incident, plan: seq<PlanStep>, evidence: seq<Evidence>, failures: seq<string>, calls: nat,
    hypotheses: HypothesesReply, reply: ReportReply
  ): Report
  {
    var hs := Validated(Hypotheses(incident, evidence, hypotheses), evidence);
    Report(incident.id, FinalStatus(Verdict(hs, true), hs, reply), hs, Actions(hs, reply), failures,
           CitedIds(hs), evidence, |plan|, calls)
  }

  method GenerateReport(state: AgentState, reply: ReportReply)
    modifies state`finalReport, state`incidentStatus
    ensures var hs := state.hypotheses;
            state.finalReport == Some(Report(
              state.incident.id, FinalStatus(Verdict(hs, AllCited(hs, EvidenceIds(state.evidence))), hs, reply), hs,
              Actions(hs, reply), state.toolFailures,
              CitedIds(hs), state.evidence, |state.plan|, state.toolCallsUsed))
    ensures state.incidentStatus == if state.finalReport.value.status == Diagnosed then IncidentDiagnosed
            else IncidentInconclusive
  {
    var hs := state.hypotheses;
    var traceability := ValidateTraceability(hs, state.evidence);
    var status := Verdict(hs, traceability.fullyTraceable);
    match reply {
      case ReportBody(Some(suggested), _) =>
        if !(status == Diagnosed && suggested != Diagnosed && HighWithSupport(hs)) {
          status := suggested;
        }
      case _ =>
    }
    var actions := MergeActions(RuleBasedActions(hs), ReplyActions(reply), hs);
    state.finalReport := Some(Report(
      state.incident.id, status, hs, actions, state.toolFailures,
      CitedIds(hs), state.evidence, |state.plan|, state.toolCallsUsed));
    state.incidentStatus := if status == Diagnosed then IncidentDiagnosed else IncidentInconclusive;
  }

  /** The second half of a run: everything after evidence collection. */
  method Conclude(state: AgentState, hypothesesReply: HypothesesReply, reportReply: ReportReply)
    modifies state`hypotheses, state`finalReport, state`incidentStatus
    ensures state.finalReport == Some(ReportOf(state.incident, state.plan, state.evidence, state.toolFailures,
                                               state.toolCallsUsed, hypothesesReply, reportReply))
  {
    BuildHypotheses(state, hypothesesReply);
    ghost var built := state.hypotheses;
    state.ValidateEvidence();
    ValidationEstablishes(built, state.evidence);
    GenerateReport(state, reportReply);
  }

  /** The first half of a run: plan, then collect. */
  method Investigate(incident: Incident, maxCalls: int, tools: Tools, reply: PlanReply) returns (state: AgentState)
    ensures fresh(state) && state.incident == incident && state.plan == Plan(incident, reply, maxCalls)
    ensures state.evidence == Gathered(tools, 0, state.plan) && state.toolFailures == Failures(tools, 0, state.plan)
    ensures state.toolCallsUsed == |state.plan|
  {
    state := new AgentState(incident, maxCalls);
    state.LoadIncident();
    CreatePlan(state, reply);
    PlanWithinBudget(incident, reply, maxCalls);
    assert state.plan[..|state.plan|] == state.plan;
    state.CollectEvidence(tools);
  }

  /** One run with an available LLM: the three replies and the tools are arbitrary. */
  method Diagnose(incident: Incident, maxCalls: int, tools: Tools,
                  planReply: PlanReply, hypothesesReply: HypothesesReply, reportReply: ReportReply)
    returns (report: Report)
    ensures report == RunReport(incident, maxCalls, tools, planReply, hypothesesReply, reportReply)
  {
    var state := Investigate(incident, maxCalls, tools, planReply);
    Conclude(state, hypothesesReply, reportReply);
    report := state.finalReport.value;
  }

  function RunReport(incident: Incident, maxCalls: int, tools: Tools,
                     planReply: PlanReply, hypothesesReply: HypothesesReply, reportReply: ReportReply): Report
  {
    var plan := Plan(incident, planReply, maxCalls);
    ReportOf(incident, plan, Gathered(tools, 0, plan), Failures(tools, 0, plan), |plan|, hypothesesReply, reportReply)
  }

  lemma PlanWithinBudget(incident: Incident, reply: PlanReply, maxCalls: int)
    ensures |Plan(incident, reply, maxCalls)| <= Budget(maxCalls)
  {}

  /** Every planned call is made, and leaves evidence or a recorded failure. */
  lemma RunUsesWholePlan(incident: Incident, maxCalls: int, tools: Tools,
                         planReply: PlanReply, hypothesesReply: HypothesesReply, reportReply: ReportReply)
    ensures var r := RunReport(incident, maxCalls, tools, planReply, hypothesesReply, reportReply);
            && |r.evidenceDetails| + |r.toolFailures| == r.investigationSteps == r.totalToolCalls
            && r.totalToolCalls <= Budget(maxCalls)
            && DistinctKeys(Plan(incident, planReply, maxCalls), StepKeys())
  {
    var chosen := if LlmSteps(planReply) == [] then RuleBasedPlan(incident) else LlmSteps(planReply);
    RequiredStepsFirst(chosen, RuleBasedPlan(incident), maxCalls);
    CallsAccountedFor(tools, 0, Plan(incident, planReply, maxCalls));
  }

  // ---------- The guard-rails decide ----------

  /** A guard-rail cause the pool metric does not contradict. */
  function Survives(evidence: seq<Evidence>): Hypothesis -> bool
  {
    (h: Hypothesis) => h.code != Unknown && !(PoolIsLow(evidence) && h.code == ConnectionPoolExhausted)
  }

  /** A High-confidence database cause whose first supporting id was collected. */
  ghost predicate Strong(h: Hypothesis, ids: set<string>)
  {
    h.confidence == High && (h.code == DatabaseSlowQuery || h.code == ConnectionPoolExhausted) &&
    h.supporting != [] && h.supporting[0] in ids
  }

  ghost predicate AllStrong(hs: seq<Hypothesis>, ids: set<string>)
  {
    forall i :: 0 <= i < |hs| ==> Strong(hs[i], ids)
  }

  lemma {:induction false} RulesAreStrong(incident: Incident, evidence: seq<Evidence>, ids: set<string>)
    requires forall e | e in evidence :: e.id in ids
    ensures AllStrong(Rules(incident, evidence), ids)
  {
    if evidence != [] {
      var last := evidence[|evidence| - 1];
      assert last in evidence;
      RulesAreStrong(incident, evidence[..|evidence| - 1], ids);
      assert AllStrong(Rule(incident, last), ids);
    }
  }

  lemma FreshIsStrong(h: Hypothesis, ids: set<string>)
    requires Strong(h, ids)
    ensures Strong(Fresh(Llm, h), ids)
  {
    assert h.supporting == [h.supporting[0]] + h.supporting[1..];
    FirstOccurrencesPrefix([h.supporting[0]], h.supporting[1..], Same());
    assert FirstOccurrences([h.supporting[0]], Same()) == [h.supporting[0]];
  }

  lemma CombineIsStrong(e: Hypothesis, h: Hypothesis, ids: set<string>)
    requires Strong(e, ids)
    ensures Strong(Combine(Llm, e, h), ids)
  {
    AddMissingIds(e.supporting, h.supporting);
  }

  lemma {:induction false} MergeIsStrong(hs: seq<Hypothesis>, ids: set<string>)
    requires AllStrong(hs, ids)
    ensures AllStrong(Merge(Llm, hs), ids)
  {
    if hs != [] {
      var n := |hs| - 1;
      MergeIsStrong(hs[..n], ids);
      var table := Merge(Llm, hs[..n]);
      FreshIsStrong(hs[n], ids);
      var i := Find(table, hs[n].code);
      if i < |table| {
        CombineIsStrong(table[i], hs[n], ids);
      }
    }
  }

  lemma AbsorbKeepsStrong(table: seq<Hypothesis>, m: nat, h: Hypothesis, ids: set<string>)
    requires m <= |table| && AllStrong(table[..m], ids)
    ensures var next := Absorb(Llm, table, h);
            m <= |next| && AllStrong(next[..m], ids) && Codes(next[..m]) == Codes(table[..m])
  {
    var next := Absorb(Llm, table, h);
    var i := Find(table, h.code);
    if i < m {
      assert table[..m][i] == table[i];
      CombineIsStrong(table[i], h, ids);
      assert next[..m] == table[..m][i := Combine(Llm, table[i], h)];
    } else {
      assert next[..m] == table[..m];
    }
  }

  lemma {:induction false} MergeAppend(hs: seq<Hypothesis>, h: Hypothesis)
    ensures Merge(Llm, hs + [h]) == Absorb(Llm, Merge(Llm, hs), h)
  {
    assert (hs + [h])[..|hs|] == hs;
  }

  /** Whatever is merged after strong hypotheses leaves them in place, strong. */
  lemma {:induction false} MergeKeepsStrong(hs: seq<Hypothesis>, more: seq<Hypothesis>, ids: set<string>)
    requires AllStrong(hs, ids)
    ensures var table, start := Merge(Llm, hs + more), Merge(Llm, hs);
            |start| <= |table| && AllStrong(table[..|start|], ids) && Codes(table[..|start|]) == Codes(start)
  {
    var start := Merge(Llm, hs);
    if more == [] {
      assert hs + more == hs;
      MergeIsStrong(hs, ids);
      assert start[..|start|] == start;
    } else {
      var n := |more| - 1;
      MergeKeepsStrong(hs, more[..n], ids);
      ConcatLast(hs, more);
      MergeAppend(hs + more[..n], more[n]);
      AbsorbKeepsStrong(Merge(Llm, hs + more[..n]), |start|, more[n], ids);
    }
  }

  lemma {:induction false} FilterKeepsFront<T>(xs: seq<T>, m: nat, p: T -> bool)
    requires m <= |xs| && forall i :: 0 <= i < m ==> p(xs[i])
    ensures xs[..m] <= Filter(xs, p)
  {
    if m == |xs| {
      FilterAll(xs, p);
      assert xs[..m] == xs;
    } else {
      FilterKeepsFront(xs[..|xs| - 1], m, p);
      assert xs[..|xs| - 1][..m] == xs[..m];
    }
  }

  lemma StrongRanksFirst(h: Hypothesis, ids: set<string>)
    ensures RankKey()(h) >= 0.0
    ensures Strong(h, ids) ==> WithKey(RankKey(), 0.0)(h)
  {}

  /** Strong hypotheses at the front of the table stay at the front when it is sorted. */
  lemma {:induction false} SortKeepsStrong(table: seq<Hypothesis>, m: nat, ids: set<string>)
    requires m <= |table| && AllStrong(table[..m], ids)
    ensures table[..m] <= Sort(table, RankKey())
  {
    forall i | 0 <= i < m ensures WithKey(RankKey(), 0.0)(table[i])
    {
      assert table[i] == table[..m][i];
      StrongRanksFirst(table[i], ids);
    }
    FilterKeepsFront(table, m, WithKey(RankKey(), 0.0));
    SortStable(table, RankKey(), 0.0);
    SortedStartsWithLeast(table, ids);
  }

  lemma {:induction false} SortedStartsWithLeast(table: seq<Hypothesis>, ids: set<string>)
    ensures Filter(Sort(table, RankKey()), WithKey(RankKey(), 0.0)) <= Sort(table, RankKey())
  {
    SortFacts(table, RankKey());
    forall h | h in Sort(table, RankKey()) ensures 0.0 <= RankKey()(h)
    {
      StrongRanksFirst(h, ids);
    }
    LeastClassFirst(Sort(table, RankKey()), RankKey(), 0.0);
  }

  lemma TwoStrongCodes(table: seq<Hypothesis>, ids: set<string>)
    requires AllStrong(table, ids)
    ensures |table| > 2 ==>
              table[0].code == table[1].code || table[1].code == table[2].code || table[0].code == table[2].code
  {
    if |table| > 2 {
      assert Strong(table[0], ids) && Strong(table[1], ids) && Strong(table[2], ids);
    }
  }

  /** Distinct strong causes number at most two. */
  lemma AtMostTwoStrong(table: seq<Hypothesis>, ids: set<string>)
    requires AllStrong(table, ids) && DistinctKeys(table, CodeOf())
    ensures |table| <= 2
  {
    TwoStrongCodes(table, ids);
  }

  /** After the cut, the merged guard-rail causes are still the first ones. */
  lemma {:induction false} CutStartsWithGuardrails(guards: seq<Hypothesis>, llm: seq<Hypothesis>, ids: set<string>)
    requires AllStrong(guards, ids)
    ensures var m, cut := |Merge(Llm, guards)|, MergeAndCut(guards + llm);
            m <= |cut| && AllStrong(cut[..m], ids) && Codes(cut[..m]) == FirstOccurrences(Codes(guards), Same())
  {
    var m, table := |Merge(Llm, guards)|, Merge(Llm, guards + llm);
    MergeKeepsStrong(guards, llm, ids);
    MergeOrder(Llm, guards);
    MergeIsStrong(guards, ids);
    MergeDistinct(Llm, guards);
    AtMostTwoStrong(Merge(Llm, guards), ids);
    SortKeepsStrong(table, m, ids);
    var sorted := Sort(table, RankKey());
    SortFacts(table, RankKey());
    assert Cut(sorted)[..m] == sorted[..m] == table[..m];
  }

  // ---------- Theorems over every reply ----------

  lemma {:induction false} HeadStaysFirst(codes: seq<Cause>)
    requires codes != []
    ensures var r := FirstOccurrences(codes, Same()); r != [] && r[0] == codes[0]
  {
    assert codes == [codes[0]] + codes[1..];
    FirstOccurrencesPrefix([codes[0]], codes[1..], Same());
    assert FirstOccurrences([codes[0]], Same()) == [codes[0]];
  }

  lemma SurvivorAt(guards: seq<Hypothesis>, evidence: seq<Evidence>) returns (k: nat)
    requires Filter(guards, Survives(evidence)) != []
    ensures k < |guards| && guards[k] == Filter(guards, Survives(evidence))[0] && Survives(evidence)(guards[k])
    ensures Survives(evidence)(guards[0]) ==> k == 0
  {
    FilterMembers(guards, Survives(evidence));
    var first := Filter(guards, Survives(evidence))[0];
    assert first in Filter(guards, Survives(evidence));
    k :| 0 <= k < |guards| && guards[k] == first;
    if Survives(evidence)(guards[0]) {
      FilterHead(guards, Survives(evidence));
      k := 0;
    }
  }

  /** The first merged guard-rail cause that survives is the first surviving guard-rail. */
  lemma {:induction false} FirstSurvivor(guards: seq<Hypothesis>, evidence: seq<Evidence>, ids: set<string>)
    requires AllStrong(guards, ids) && Filter(guards, Survives(evidence)) != []
    ensures var codes, first := FirstOccurrences(Codes(guards), Same()), Filter(guards, Survives(evidence))[0].code;
            && codes != []
            && if PoolIsLow(evidence) && codes[0] == ConnectionPoolExhausted
               then |codes| == 2 && codes[1] == first == DatabaseSlowQuery
               else codes[0] == first
  {
    var k := SurvivorAt(guards, evidence);
    assert Strong(guards[0], ids) && Strong(guards[k], ids);
    HeadStaysFirst(Codes(guards));
    if !Survives(evidence)(guards[0]) {
      var table := Merge(Llm, guards);
      MergeOrder(Llm, guards);
      assert Codes(table)[0] == table[0].code;
      MergeIsStrong(guards, ids);
      MergeDistinct(Llm, guards);
      AtMostTwoStrong(table, ids);
      SurvivorListed(guards, table, guards[k].code, k);
    }
  }

  lemma SurvivorListed(guards: seq<Hypothesis>, table: seq<Hypothesis>, code: Cause, k: nat)
    requires k < |guards| && guards[k].code == code && Codes(table) == FirstOccurrences(Codes(guards), Same())
    requires DistinctKeys(table, CodeOf()) && 1 <= |table| <= 2 && table[0].code != code
    ensures |table| == 2 && table[1].code == code && Codes(table)[1] == code
  {
    assert Codes(guards)[k] == code;
    HasSame(Codes(guards), code);
    HasSame(Codes(table), code);
    FirstOccurrencesKeys(Codes(guards), Same());
    var i :| 0 <= i < |table| && Codes(table)[i] == code;
  }

  /** Ranking first whatever survives the pool metric. */
  lemma HeadAfterRemoval(cut: seq<Hypothesis>, m: nat, evidence: seq<Evidence>, first: Cause, ids: set<string>)
    requires 1 <= m <= |cut| && AllStrong(cut[..m], ids)
    requires if PoolIsLow(evidence) && cut[0].code == ConnectionPoolExhausted
             then m == 2 && cut[1].code == first == DatabaseSlowQuery
             else cut[0].code == first
    ensures var kept := RemoveContradicted(cut, evidence); kept != [] && Strong(kept[0], ids) && kept[0].code == first
  {
    assert Strong(cut[..m][0], ids);
    if PoolIsLow(evidence) {
      if cut[0].code == ConnectionPoolExhausted {
        assert Strong(cut[..m][1], ids);
        assert cut == [cut[0]] + cut[1..];
        FilterConcat([cut[0]], cut[1..], NotPool());
        assert Filter([cut[0]], NotPool()) == [];
        FilterHead(cut[1..], NotPool());
      } else {
        FilterHead(cut, NotPool());
      }
    }
  }

  lemma GuardrailsAreStrong(incident: Incident, evidence: seq<Evidence>)
    requires Filter(Guardrails(incident, evidence), Survives(evidence)) != []
    ensures evidence != [] && AllStrong(Guardrails(incident, evidence), EvidenceIds(evidence))
  {
    RulesAreStrong(incident, evidence, EvidenceIds(evidence));
  }

  /** The hypotheses handed to validation start with the first surviving guard-rail. */
  lemma HypothesesStartWithGuardrail(incident: Incident, evidence: seq<Evidence>, reply: HypothesesReply)
    requires Filter(Guardrails(incident, evidence), Survives(evidence)) != []
    ensures var hs := Hypotheses(incident, evidence, reply);
            hs != [] && Strong(hs[0], EvidenceIds(evidence)) &&
            hs[0].code == Filter(Guardrails(incident, evidence), Survives(evidence))[0].code
  {
    var ids, guards := EvidenceIds(evidence), Guardrails(incident, evidence);
    GuardrailsAreStrong(incident, evidence);
    CutStartsWithGuardrails(guards, ParseHypotheses(reply), ids);
    FirstSurvivor(guards, evidence, ids);
    MergeOrder(Llm, guards);
    var m, cut := |Merge(Llm, guards)|, MergeAndCut(guards + ParseHypotheses(reply));
    assert Codes(cut[..m])[0] == cut[0].code;
    if m == 2 {
      assert Codes(cut[..m])[1] == cut[1].code;
    }
    HeadAfterRemoval(cut, m, evidence, Filter(guards, Survives(evidence))[0].code, ids);
  }

  /** A strong first hypothesis passes validation and stands against the LLM's verdict. */
  lemma StrongHeadDecides(hs: seq<Hypothesis>, evidence: seq<Evidence>, reply: ReportReply)
    requires hs != [] && Strong(hs[0], EvidenceIds(evidence))
    ensures var top := Validated(hs, evidence);
            && top != [] && top[0].code == hs[0].code && top[0].rank == 1 && top[0].confidence == High &&
               top[0].supporting != []
            && (forall id | id in top[0].supporting :: id in EvidenceIds(evidence))
            && FinalStatus(Verdict(top, true), top, reply) == Diagnosed
  {
    ValidationEstablishes(hs, evidence);
    ValidationKeepsHead(hs, evidence, hs[0].supporting[0]);
    var top := Validated(hs, evidence);
    assert top[0] in top;
    assert Cited(top[0], EvidenceIds(evidence));
  }

  /** Whatever the LLM replies: if some guard-rail names a cause the pool metric does
      not contradict, the run is Diagnosed, and its first cause is the first such
      guard-rail, at High confidence and with collected supporting ids. */
  lemma GuardrailsDecide(
    incident: Incident, plan: seq<PlanStep>, evidence: seq<Evidence>, failures: seq<string>, calls: nat,
    hypothesesReply: HypothesesReply, reportReply: ReportReply)
    requires Filter(Guardrails(incident, evidence), Survives(evidence)) != []
    ensures var r := ReportOf(incident, plan, evidence, failures, calls, hypothesesReply, reportReply);
            && r.status == Diagnosed
            && r.topCauses != []
            && r.topCauses[0].code == Filter(Guardrails(incident, evidence), Survives(evidence))[0].code
            && r.topCauses[0].rank == 1 && r.topCauses[0].confidence == High
            && r.topCauses[0].supporting != []
            && (forall id | id in r.topCauses[0].supporting :: id in EvidenceIds(evidence))
  {
    HypothesesStartWithGuardrail(incident, evidence, hypothesesReply);
    StrongHeadDecides(Hypotheses(incident, evidence, hypothesesReply), evidence, reportReply);
  }

  /** The reply asks for this status. */
  predicate Asks(reply: ReportReply, status: Status)
  {
    reply.ReportBody? && reply.status == Some(status)
  }

  predicate Silent(reply: ReportReply)
  {
    reply.NoReport? || reply.status == None
  }

  /** When a run is Diagnosed, and when it is Failed: the LLM can always make it Diagnosed;
      against the LLM it stays so exactly when the first cause has support and is not Low
      and some High cause has support; and only the LLM can make it Failed. */
  lemma OverrideExactly(
    incident: Incident, plan: seq<PlanStep>, evidence: seq<Evidence>, failures: seq<string>, calls: nat,
    hypothesesReply: HypothesesReply, reply: ReportReply)
    ensures var r := ReportOf(incident, plan, evidence, failures, calls, hypothesesReply, reply);
            var founded := r.topCauses != [] && r.topCauses[0].supporting != [] && r.topCauses[0].confidence != Low;
            && (r.status == Diagnosed <==>
                Asks(reply, Diagnosed) || (founded && (HighWithSupport(r.topCauses) || Silent(reply))))
            && (r.status == Failed <==> Asks(reply, Failed) && !(founded && HighWithSupport(r.topCauses)))
  {
    var hs := Hypotheses(incident, evidence, hypothesesReply);
    ValidationEstablishes(hs, evidence);
    VerdictOfValidated(hs, evidence, true);
  }

  /** So the rule that missing evidence means Inconclusive holds exactly when the
      LLM does not insist: with nothing collected the verdict is the LLM's own. */
  lemma DiagnosedWithoutEvidence(
    incident: Incident, plan: seq<PlanStep>, failures: seq<string>, calls: nat,
    hypothesesReply: HypothesesReply, reportReply: ReportReply)
    ensures var r := ReportOf(incident, plan, [], failures, calls, hypothesesReply, reportReply);
            && (r.status == Diagnosed <==> reportReply.ReportBody? && reportReply.status == Some(Diagnosed))
            && (forall h | h in r.topCauses :: h.supporting == [])
  {
    var built := Hypotheses(incident, [], hypothesesReply);
    ValidationEstablishes(built, []);
    var hs := Validated(built, []);
    assert EvidenceIds([]) == {};
    forall h | h in hs ensures h.supporting == []
    {
      assert Cited(h, {});
      NonemptyHasMember(h.supporting);
    }
    OverrideExactly(incident, plan, [], failures, calls, hypothesesReply, reportReply);
  }

  lemma {:induction false} NothingGathered(tools: Tools, used: nat, steps: seq<PlanStep>)
    requires forall n: nat, step: PlanStep :: !tools(n, step).success
    ensures Gathered(tools, used, steps) == []
  {
    if steps != [] {
      NothingGathered(tools, used, steps[..|steps| - 1]);
    }
  }

  /** Such runs: whenever all tools fail, a reply that asks for Diagnosed gets it. */
  lemma DiagnosedOnRequest(incident: Incident, maxCalls: int, tools: Tools,
                           planReply: PlanReply, hypothesesReply: HypothesesReply, reportReply: ReportReply)
    requires forall n: nat, step: PlanStep :: !tools(n, step).success
    requires Asks(reportReply, Diagnosed)
    ensures var r := RunReport(incident, maxCalls, tools, planReply, hypothesesReply, reportReply);
            && r.status == Diagnosed && r.evidenceDetails == []
            && (forall h | h in r.topCauses :: h.supporting == [])
  {
    var plan := Plan(incident, planReply, maxCalls);
    NothingGathered(tools, 0, plan);
    DiagnosedWithoutEvidence(incident, plan, Failures(tools, 0, plan), |plan|, hypothesesReply, reportReply);
  }

  /** Negative evidence is final: with a pool metric below 70 percent no report names
      the connection pool as a cause or mentions it in an action. */
  lemma NegativeEvidenceIsFinal(
    incident: Incident, plan: seq<PlanStep>, evidence: seq<Evidence>, failures: seq<string>, calls: nat,
    hypothesesReply: HypothesesReply, reportReply: ReportReply)
    requires exists e | e in evidence ::
               e.source == QueryMetrics && e.content.metric == "db_pool_active_ratio" &&
               e.content.current.Some? && e.content.current.value < 0.7
    ensures var r := ReportOf(incident, plan, evidence, failures, calls, hypothesesReply, reportReply);
            && (forall h | h in r.topCauses :: h.code != ConnectionPoolExhausted)
            && (forall a | a in r.actions :: !Contains(Lower(a), "connection pool") && !Contains(Lower(a), "hikaricp"))
  {
    assert PoolIsLow(evidence);
    var built := Hypotheses(incident, evidence, hypothesesReply);
    var raw := MergeAndCut(Guardrails(incident, evidence) + ParseHypotheses(hypothesesReply));
    PoolRemoved(raw, evidence);
    assert Codes(built) == Codes(RemoveContradicted(raw, evidence));
    ValidationEstablishes(built, evidence);
    var hs := Validated(built, evidence);
    CodesMember(hs, ConnectionPoolExhausted);
    ChosenFacts(RuleBasedActions(hs) + ReplyActions(reportReply), PoolNamed(hs));
    GatherIsNeutral();
  }

  /** Every report recommends one to three actions, no two alike or of one category. */
  lemma ActionsAreFew(hs: seq<Hypothesis>, reply: ReportReply)
    ensures var actions := Actions(hs, reply);
            && 1 <= |actions| <= 3
            && (forall i, j :: 0 <= i < j < |actions| ==> actions[i] != actions[j])
            && (forall i, j :: 0 <= i < j < |actions| && Category(actions[i]) != "" ==>
                Category(actions[i]) != Category(actions[j]))
  {
    ChosenFacts(RuleBasedActions(hs) + ReplyActions(reply), PoolNamed(hs));
  }
}
