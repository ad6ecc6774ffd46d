/** How the LLM agent reads replies, and what it asks and advises whatever they say
    (python/app/agent/llm_graph.py). */
module ReplyMeaning {
  import opened Collections
  import opened Domain
  import opened Text
  import opened Governance
  import opened Merging
  import opened Investigation
  import A = LlmAgent

  // ---------- The plan ----------

  ghost predicate AsksMetric(plan: seq<PlanStep>, service: string, metric: string)
  {
    exists s :: s in plan && s.tool == QueryMetrics && Param(s, "service") == service && Param(s, "metric") == metric
  }

  ghost predicate AsksFor(plan: seq<PlanStep>, service: string, tool: Tool)
  {
    exists s :: s in plan && s.tool == tool && Param(s, "service") == service
  }

  lemma PlanSteps(incident: Incident)
    ensures var plan := A.RuleBasedPlan(incident);
            && 2 <= |plan| <= 4
            && (forall s :: s in plan <==>
                  s == plan[0] || s == plan[1] || (|plan| > 2 && s == plan[2]) || (|plan| > 3 && s == plan[3]))
  {}

  lemma MetricsAsked(incident: Incident, metric: string)
    ensures AsksMetric(A.RuleBasedPlan(incident), incident.service, metric) <==>
            match incident.alertType
            case P95LatencyHigh => metric == "latency_p95" || metric == "db_pool_active_ratio"
            case ErrorRateHigh => metric == "error_rate"
            case ThroughputLow => metric == "request_rate"
            case MqLagHigh => metric == "mq_lag"
  {
    PlanSteps(incident);
  }

  lemma LogsAsked(incident: Incident)
    ensures var plan, service := A.RuleBasedPlan(incident), incident.service;
            && AsksFor(plan, service, QueryLogs)
            && (AsksFor(plan, service, QueryDeployments) <==>
                incident.alertType == P95LatencyHigh || incident.alertType == ErrorRateHigh)
            && (forall s | s in plan ::
                  Param(s, "service") == service && s.tool in {QueryLogs, QueryMetrics, QueryDeployments})
  {
    PlanSteps(incident);
  }

  /** The evidence each kind of alert requires: these metrics of the incident's own service,
      its logs, and its deployments for a latency or an error alert; nothing else. */
  lemma RequiredEvidence(incident: Incident)
    ensures var plan, service := A.RuleBasedPlan(incident), incident.service;
            && (forall metric :: AsksMetric(plan, service, metric) <==>
                  match incident.alertType
                  case P95LatencyHigh => metric == "latency_p95" || metric == "db_pool_active_ratio"
                  case ErrorRateHigh => metric == "error_rate"
                  case ThroughputLow => metric == "request_rate"
                  case MqLagHigh => metric == "mq_lag")
            && AsksFor(plan, service, QueryLogs)
            && (AsksFor(plan, service, QueryDeployments) <==>
                incident.alertType == P95LatencyHigh || incident.alertType == ErrorRateHigh)
            && (forall s | s in plan ::
                  Param(s, "service") == service && s.tool in {QueryLogs, QueryMetrics, QueryDeployments})
  {
    forall metric { MetricsAsked(incident, metric); }
    LogsAsked(incident);
  }

  /** Of the LLM's plan only the first four items count, and of those the ones that name a
      known tool, in order. */
  lemma PlanReading(items: seq<PlanStep>)
    ensures var first := if |items| < 4 then items else items[..4]; var steps := A.LlmSteps(A.PlanItems(items));
            && (forall s :: s in steps <==>
                  s in first && s.tool in {QueryLogs, QueryMetrics, QueryDeployments, SearchRunbooks})
            && steps == A.LlmSteps(A.PlanItems(first))
  {
    var first := if |items| < 4 then items else items[..4];
    FilterMembers(first, A.KnownTool());
    assert Take(items, 4) == first == Take(first, 4);
  }

  lemma RequestListed(incident: Incident, items: seq<PlanStep>, i: nat)
    requires i < |items| && i < 4 && !items[i].tool.OtherTool?
    ensures items[i] in A.RuleBasedPlan(incident) + A.LlmSteps(A.PlanItems(items))
    ensures |A.RuleBasedPlan(incident) + A.LlmSteps(A.PlanItems(items))| <= 8 && A.LlmSteps(A.PlanItems(items)) != []
  {
    var first := Take(items, 4);
    assert first[i] == items[i];
    FilterMembers(first, A.KnownTool());
  }

  lemma {:induction false} KeyKept<T, K>(xs: seq<T>, x: T, key: T -> K)
    requires x in xs
    ensures HasKey(FirstOccurrences(xs, key), key, key(x))
  {
    var k :| 0 <= k < |xs| && xs[k] == x;
    assert HasKey(xs, key, key(x));
    FirstOccurrencesKeys(xs, key);
  }

  lemma WholePlan(incident: Incident, items: seq<PlanStep>, maxCalls: int)
    requires A.LlmSteps(A.PlanItems(items)) != [] && maxCalls >= 8
    requires |A.RuleBasedPlan(incident) + A.LlmSteps(A.PlanItems(items))| <= 8
    ensures A.Plan(incident, A.PlanItems(items), maxCalls) ==
            FirstOccurrences(A.RuleBasedPlan(incident) + A.LlmSteps(A.PlanItems(items)), StepKeys())
  {}

  /** With room for eight calls no known request among the first four items is lost. */
  lemma RequestsKept(incident: Incident, items: seq<PlanStep>, maxCalls: int, i: nat)
    requires maxCalls >= 8 && i < |items| && i < 4 && !items[i].tool.OtherTool?
    ensures HasKey(A.Plan(incident, A.PlanItems(items), maxCalls), StepKeys(), KeyOf(items[i]))
  {
    var all := A.RuleBasedPlan(incident) + A.LlmSteps(A.PlanItems(items));
    RequestListed(incident, items, i);
    KeyKept(all, items[i], StepKeys());
    WholePlan(incident, items, maxCalls);
  }

  // ---------- The hypotheses ----------

  /** Of the LLM's hypotheses the first three count; anything but "high" and "medium", in
      whatever case, is LOW, and ids that are not a list are none. */
  lemma HypothesesReading(items: seq<A.HypothesisItem>, k: nat)
    requires k < |items|
    ensures var read := A.ParseHypotheses(A.HypothesisItems(items));
            && |read| == (if |items| < 3 then |items| else 3)
            && (k < 3 ==>
                && read[k].code == items[k].code && read[k].summary == items[k].summary
                && (read[k].confidence == High <==> Upper(items[k].confidence) == "HIGH")
                && (read[k].confidence == Medium <==> Upper(items[k].confidence) == "MEDIUM")
                && (items[k].supporting.Some? ==> read[k].supporting == items[k].supporting.value)
                && (items[k].supporting.None? ==> read[k].supporting == [])
                && (items[k].contradicting.Some? ==> read[k].contradicting == items[k].contradicting.value)
                && (items[k].contradicting.None? ==> read[k].contradicting == []))
  {
    assert "HIGH" != "MEDIUM";
  }

  // ---------- The actions ----------

  predicate AboutPool(action: string)
  {
    Contains(Lower(action), "connection pool") || Contains(Lower(action), "hikaricp")
  }

  predicate AboutIndexes(action: string)
  {
    Contains(Lower(action), "index") || Contains(Lower(action), "explain")
  }

  predicate AboutQueries(action: string)
  {
    Contains(Lower(action), "n+1") || Contains(Lower(action), "rewrite")
  }

  predicate AboutPlans(action: string)
  {
    Contains(Lower(action), "execution plan") || Contains(Lower(action), "optimize") ||
    Contains(Lower(action), "slow-running sql")
  }

  predicate AboutWatching(action: string)
  {
    Contains(Lower(action), "monitor") || Contains(Lower(action), "alert")
  }

  /** The first of these subjects that one of the actions is about is that of both. */
  predicate SameSubject(a: string, b: string)
  {
    if AboutPool(a) || AboutPool(b) then AboutPool(a) && AboutPool(b)
    else if AboutIndexes(a) || AboutIndexes(b) then AboutIndexes(a) && AboutIndexes(b)
    else if AboutQueries(a) || AboutQueries(b) then AboutQueries(a) && AboutQueries(b)
    else if AboutPlans(a) || AboutPlans(b) then AboutPlans(a) && AboutPlans(b)
    else AboutWatching(a) && AboutWatching(b)
  }

  lemma SubjectIsCategory(a: string, b: string)
    ensures SameSubject(a, b) <==> A.Category(a) == A.Category(b) && A.Category(a) != ""
  {}

  /** No two recommended actions are on the same subject, and none is about the connection
      pool unless the report names the pool as a cause. */
  lemma SubjectsDiffer(hs: seq<Hypothesis>, reply: A.ReportReply)
    ensures var actions := A.Actions(hs, reply);
            && (forall i, j :: 0 <= i < j < |actions| ==> !SameSubject(actions[i], actions[j]))
            && ((exists a :: a in actions && AboutPool(a)) ==> exists h :: h in hs && h.code == ConnectionPoolExhausted)
  {
    var actions := A.Actions(hs, reply);
    A.ActionsAreFew(hs, reply);
    A.ChosenFacts(A.RuleBasedActions(hs) + A.ReplyActions(reply), A.PoolNamed(hs));
    A.GatherIsNeutral();
    forall i, j | 0 <= i < j < |actions| ensures !SameSubject(actions[i], actions[j])
    {
      SubjectIsCategory(actions[i], actions[j]);
    }
    CodesMember(hs, ConnectionPoolExhausted);
  }

  /** What is advised for a cause. */
  predicate Advises(code: Cause, action: string)
  {
    match code
    case DatabaseSlowQuery =>
      || action == "Check for missing database indexes (EXPLAIN ANALYZE on slow queries)"
      || action == "Review query execution plans and optimize N+1 queries"
    case ConnectionPoolExhausted =>
      || action == "Increase HikariCP maximum pool size"
      || action == "Check for connection leaks (long-running transactions)"
      || action == "Review slow queries holding connections"
    case RedisTimeout => action == "Check Redis health" || action == "Review slow commands"
    case DownstreamServiceFailure => action == "Check downstream health" || action == "Verify circuit breaker"
    case RecentDeploymentRegression => action == "Review deployment changes" || action == "Consider rollback"
    case ApplicationErrorSpike => action == "Review error logs" || action == "Check resource usage"
    case _ => false
  }

  lemma KnownAdvice(code: Cause, action: string)
    ensures action in A.KnownActions(code) <==> Advises(code, action)
  {}

  lemma {:induction false} AdviceListed(hs: seq<Hypothesis>, action: string)
    ensures action in A.ActionsFor(hs) <==> exists h :: h in hs && Advises(h.code, action)
  {
    if action in A.ActionsFor(hs) {
      var i := FlatMapMember(hs, A.Advice(), action);
      KnownAdvice(hs[i].code, action);
      assert hs[i] in hs;
    }
    if h :| h in hs && Advises(h.code, action) {
      var i :| 0 <= i < |hs| && hs[i] == h;
      KnownAdvice(h.code, action);
      FlatMapKeeps(hs, A.Advice(), i, action);
    }
  }

  /** Every recommended action is advised for a reported cause or comes from the reply; only
      when there is nothing of the kind more evidence is asked for. */
  lemma AdviceFollows(hs: seq<Hypothesis>, reply: A.ReportReply, action: string)
    requires action in A.Actions(hs, reply)
    ensures || (exists h :: h in hs && Advises(h.code, action))
            || (reply.ReportBody? && action in reply.actions)
            || action == "Gather more evidence"
  {
    var candidates := A.RuleBasedActions(hs) + A.ReplyActions(reply);
    A.ChosenFacts(candidates, A.PoolNamed(hs));
    if action != A.GATHER {
      assert action in candidates;
      if action in A.RuleBasedActions(hs) {
        UniqueIds(A.ActionsFor(hs));
        AdviceListed(hs, action);
      }
    }
  }

  // ---------- Requests and failures ----------

  /** Which steps count as the same request: logs or deployments of one service, one metric of
      one service, or anything else with the same parameters, words in any order. */
  predicate SameRequest(a: PlanStep, b: PlanStep)
  {
    && a.tool == b.tool
    && (a.tool == QueryLogs || a.tool == QueryDeployments ==> Param(a, "service") == Param(b, "service"))
    && (a.tool == QueryMetrics ==>
          Param(a, "service") == Param(b, "service") && Param(a, "metric") == Param(b, "metric"))
    && (a.tool == SearchRunbooks || a.tool.OtherTool? ==>
          a.texts == b.texts && a.lists.Keys == b.lists.Keys &&
          forall k | k in a.lists :: multiset(a.lists[k]) == multiset(b.lists[k]))
  }

  lemma RequestsMean(a: PlanStep, b: PlanStep)
    ensures KeyOf(a) == KeyOf(b) <==> SameRequest(a, b)
  {
    var x, y := map k | k in a.lists :: multiset(a.lists[k]), map k | k in b.lists :: multiset(b.lists[k]);
    assert x.Keys == a.lists.Keys && y.Keys == b.lists.Keys;
    if x == y {
      forall k | k in a.lists ensures multiset(a.lists[k]) == multiset(b.lists[k])
      {
        assert x[k] == y[k];
      }
    }
  }

  /** The words looked for in the logs. */
  lemma WordsLookedFor(incident: Incident, s: PlanStep)
    requires s in A.RuleBasedPlan(incident) && s.tool == QueryLogs
    ensures s.lists == map["keywords" :=
              match incident.alertType
              case P95LatencyHigh => ["slow", "timeout"]
              case ErrorRateHigh => ["error", "exception"]
              case ThroughputLow => ["timeout", "blocked"]
              case MqLagHigh => ["consumer", "error"]]
  {
    PlanSteps(incident);
  }

  /** A failed call is recorded under the name of its tool, with the error. */
  lemma FailureRecorded(tools: Tools, used: nat, step: PlanStep)
    requires !tools(used, step).success
    ensures Failures(tools, used, [step]) == [
              (match step.tool
               case QueryLogs => "query_logs"
               case QueryMetrics => "query_metrics"
               case QueryDeployments => "query_deployments"
               case SearchRunbooks => "search_runbooks"
               case OtherTool(name) => name) + ": " + tools(used, step).error]
  {
    assert [step][..0] == [];
    assert used + 0 == used;
  }
}
