/** What both agents share: the investigation plan, evidence collection under a
    tool budget, and the rules about the database connection pool
    (python/app/agent/graph.py, python/app/agent/llm_graph.py). */
module Investigation {
  import opened Collections
  import opened Domain
  import opened Text
  import Governance

  // ---------- Plan steps ----------

  function Param(step: PlanStep, name: string): string
  {
    if name in step.texts then step.texts[name] else ""
  }

  /** What makes two steps ask for the same thing. Lists of words count as bags. */
  datatype StepKey =
    | ByService(tool: Tool, service: string)
    | ByMetric(service: string, metric: string)
    | ByParameters(tool: Tool, texts: map<string, string>, bags: map<string, multiset<string>>)

  function KeyOf(step: PlanStep): StepKey
  {
    if step.tool == QueryLogs || step.tool == QueryDeployments then ByService(step.tool, Param(step, "service"))
    else if step.tool == QueryMetrics then ByMetric(Param(step, "service"), Param(step, "metric"))
    else ByParameters(step.tool, step.texts, map k | k in step.lists :: multiset(step.lists[k]))
  }

  function StepKeys(): PlanStep -> StepKey
  {
    (step: PlanStep) => KeyOf(step)
  }

  function Budget(maxCalls: int): nat
  {
    if maxCalls < 0 then 0 else maxCalls
  }

  function Take<T>(xs: seq<T>, n: nat): seq<T>
  {
    xs[..if |xs| < n then |xs| else n]
  }

  lemma {:induction false} BudgetReached(all: seq<PlanStep>, i: nat, kept: nat, n: nat)
    requires i <= |all| && n <= kept <= |FirstOccurrences(all[..i], StepKeys())|
    ensures Take(FirstOccurrences(all, StepKeys()), n) == FirstOccurrences(all[..i], StepKeys())[..n]
  {
    SplitAt(all, i);
    FirstOccurrencesPrefix(all[..i], all[i..], StepKeys());
  }

  method MergeRequiredSteps(llmSteps: seq<PlanStep>, required: seq<PlanStep>, maxCalls: int)
      returns (merged: seq<PlanStep>)
    ensures merged == Take(FirstOccurrences(required + llmSteps, StepKeys()), Budget(maxCalls))
  {
    merged := [];
    var seen: set<StepKey> := {};
    var all := required + llmSteps;
    for i := 0 to |all|
      invariant merged == FirstOccurrences(all[..i], StepKeys()) && |merged| <= Budget(maxCalls)
      invariant forall k :: k in seen <==> HasKey(all[..i], StepKeys(), k)
    {
      var key := KeyOf(all[i]);
      FirstOccurrencesNext(all, i, StepKeys());
      if key in seen {
        continue;
      }
      if |merged| >= maxCalls {
        BudgetReached(all, i, |merged|, Budget(maxCalls));
        return;
      }
      merged := merged + [all[i]];
      seen := seen + {key};
    }
    assert all[..|all|] == all;
  }

  /** The merged plan asks nothing twice, stays within the budget, and starts with
      the required steps: LLM steps only fill what the required ones leave free. */
  lemma {:induction false} RequiredStepsFirst(llmSteps: seq<PlanStep>, required: seq<PlanStep>, maxCalls: int)
    ensures var merged := Take(FirstOccurrences(required + llmSteps, StepKeys()), Budget(maxCalls));
            && |merged| <= Budget(maxCalls)
            && DistinctKeys(merged, StepKeys())
            && Take(FirstOccurrences(required, StepKeys()), Budget(maxCalls)) <= merged
            && (|FirstOccurrences(required, StepKeys())| >= Budget(maxCalls) ==>
                  merged == Take(FirstOccurrences(required, StepKeys()), Budget(maxCalls)))
  {
    FirstOccurrencesPrefix(required, llmSteps, StepKeys());
    FirstOccurrencesDistinct(required + llmSteps, StepKeys());
  }

  // ---------- The budget ----------

  /** The tools' answers: any result for the n-th call with a given step. */
  type Tools = (nat, PlanStep) -> ToolResult

  function ToolName(tool: Tool): string
  {
    match tool
    case QueryLogs => "query_logs"
    case QueryMetrics => "query_metrics"
    case QueryDeployments => "query_deployments"
    case SearchRunbooks => "search_runbooks"
    case OtherTool(name) => name
  }

  /** Evidence gathered by running all given steps, the first one as call number used. */
  function Gathered(tools: Tools, used: nat, steps: seq<PlanStep>): seq<Evidence>
  {
    if steps == [] then []
    else
      var n := |steps| - 1;
      var r := tools(used + n, steps[n]);
      Gathered(tools, used, steps[..n]) + (if r.success then [Evidence(r.evidenceId, steps[n].tool, r.content)] else [])
  }

  function Failures(tools: Tools, used: nat, steps: seq<PlanStep>): seq<string>
  {
    if steps == [] then []
    else
      var n := |steps| - 1;
      var r := tools(used + n, steps[n]);
      Failures(tools, used, steps[..n]) + (if r.success then [] else [ToolName(steps[n].tool) + ": " + r.error])
  }

  /** How many of the steps the remaining budget allows. */
  function Affordable(steps: seq<PlanStep>, used: nat, maxCalls: int): nat
  {
    if used + |steps| <= maxCalls then |steps| else if used < maxCalls then maxCalls - used else 0
  }

  const EXHAUSTED := "Budget exhausted before plan completed"

  /** Every executed call leaves one piece of evidence or one recorded failure. */
  lemma {:induction false} CallsAccountedFor(tools: Tools, used: nat, steps: seq<PlanStep>)
    ensures |Gathered(tools, used, steps)| + |Failures(tools, used, steps)| == |steps|
  {
    if steps != [] {
      CallsAccountedFor(tools, used, steps[..|steps| - 1]);
    }
  }

  /** What the next call adds to what was collected and recorded. */
  lemma {:induction false} CollectNext(
    tools: Tools, used: nat, plan: seq<PlanStep>, i: nat, evidence: seq<Evidence>, failures: seq<string>)
    requires i < |plan|
    ensures var r := tools(used + i, plan[i]);
            evidence + Gathered(tools, used, plan[..i + 1]) ==
            (evidence + Gathered(tools, used, plan[..i])) +
            (if r.success then [Evidence(r.evidenceId, plan[i].tool, r.content)] else [])
    ensures var r := tools(used + i, plan[i]);
            failures + Failures(tools, used, plan[..i + 1]) ==
            (failures + Failures(tools, used, plan[..i])) +
            (if r.success then [] else [ToolName(plan[i].tool) + ": " + r.error])
  {
    assert plan[..i + 1][..i] == plan[..i];
  }

  datatype IncidentStatus = Open | Investigating | IncidentDiagnosed | IncidentInconclusive

  /** The workflow state the graph nodes pass along. */
  class AgentState {
    const incident: Incident
    const maxToolCalls: int
    var incidentStatus: IncidentStatus
    var plan: seq<PlanStep>
    var evidence: seq<Evidence>
    var hypotheses: seq<Hypothesis>
    var toolFailures: seq<string>
    var toolCallsUsed: nat
    var finalReport: Option<Report>

    constructor (incident: Incident, maxToolCalls: int)
      ensures this.incident == incident && this.maxToolCalls == maxToolCalls
      ensures incidentStatus == Open && plan == [] && evidence == [] && hypotheses == []
      ensures toolFailures == [] && toolCallsUsed == 0 && finalReport == None
    {
      this.incident := incident;
      this.maxToolCalls := maxToolCalls;
      incidentStatus := Open;
      plan, evidence, hypotheses, toolFailures := [], [], [], [];
      toolCallsUsed, finalReport := 0, None;
    }

    method LoadIncident()
      modifies this`incidentStatus
      ensures incidentStatus == Investigating
    {
      incidentStatus := Investigating;
    }

    /** One tool call: its evidence is kept, or its failure is recorded. */
    method Execute(tools: Tools, step: PlanStep)
      modifies this`evidence, this`toolFailures, this`toolCallsUsed
      ensures toolCallsUsed == old(toolCallsUsed) + 1
      ensures var r := tools(old(toolCallsUsed), step);
              && evidence == old(evidence) + (if r.success then [Evidence(r.evidenceId, step.tool, r.content)] else [])
              && toolFailures == old(toolFailures) + (if r.success then [] else [ToolName(step.tool) + ": " + r.error])
    {
      var result := tools(toolCallsUsed, step);
      toolCallsUsed := toolCallsUsed + 1;
      if result.success {
        evidence := evidence + [Evidence(result.evidenceId, step.tool, result.content)];
      } else {
        toolFailures := toolFailures + [ToolName(step.tool) + ": " + result.error];
      }
    }

    method CollectEvidence(tools: Tools)
      modifies this`evidence, this`toolFailures, this`toolCallsUsed
      ensures var done := plan[..Affordable(plan, old(toolCallsUsed), maxToolCalls)];
              && evidence == old(evidence) + Gathered(tools, old(toolCallsUsed), done)
              && toolFailures == old(toolFailures) + Failures(tools, old(toolCallsUsed), done) +
                                 (if |done| < |plan| then [EXHAUSTED] else [])
              && toolCallsUsed == old(toolCallsUsed) + |done|
    {
      ghost var start := toolCallsUsed;
      for i := 0 to |plan|
        invariant i <= Affordable(plan, start, maxToolCalls)
        invariant toolCallsUsed == start + i
        invariant evidence == old(evidence) + Gathered(tools, start, plan[..i])
        invariant toolFailures == old(toolFailures) + Failures(tools, start, plan[..i])
      {
        if toolCallsUsed >= maxToolCalls {
          assert i == Affordable(plan, start, maxToolCalls);
          toolFailures := toolFailures + [EXHAUSTED];
          return;
        }
        CollectNext(tools, start, plan, i, old(evidence), old(toolFailures));
        Execute(tools, plan[i]);
      }
    }

    method ValidateEvidence()
      modifies this`hypotheses
      ensures hypotheses == Governance.Validated(old(hypotheses), evidence)
    {
      var ids := EvidenceIds(evidence);
      for i := 0 to |hypotheses|
        invariant |hypotheses| == |old(hypotheses)|
        invariant forall k :: 0 <= k < i ==> hypotheses[k] == Governance.Restrict(old(hypotheses)[k], ids)
        invariant hypotheses[i..] == old(hypotheses)[i..]
      {
        var h := hypotheses[i];
        assert h == old(hypotheses)[i];
        hypotheses := hypotheses[i := h.(supporting := Filter(h.supporting, Governance.IsCollected(ids)),
                                         contradicting := Filter(h.contradicting, Governance.IsCollected(ids)))];
        assert hypotheses[i + 1..] == old(hypotheses)[i + 1..];
      }
      assert hypotheses == Governance.RestrictAll(old(hypotheses), ids);
      hypotheses := Governance.FilterWithoutEvidence(hypotheses);
    }
  }

  // ---------- Metric rules ----------

  function Max(a: real, b: real): real
  {
    if a < b then b else a
  }

  // ---------- The connection pool ----------

  const POOL_METRIC := "db_pool_active_ratio"

  const NOISE: seq<string> := ["hikaripool-1 - start completed", "start completed"]
  const NON_DATABASE: seq<string> := ["redis", "http", "thread", "request queued", "rejected"]
  const EXHAUSTION_TERMS: seq<string> := [
    "connection pool exhausted", "pool exhausted", "connection pool full", "pool full",
    "timeout waiting for connection", "connection is not available", "too many connections",
    "unable to acquire jdbc connection", "could not acquire jdbc connection"]

  predicate IsPoolExhaustionLog(message: string)
  {
    var m := Lower(message);
    !ContainsAny(m, NOISE) && !ContainsAny(m, NON_DATABASE) && ContainsAny(m, EXHAUSTION_TERMS)
  }

  /** Some collected metric shows the pool below 70 percent. */
  predicate PoolIsLow(evidence: seq<Evidence>)
  {
    exists e | e in evidence ::
      e.source == QueryMetrics && e.content.metric == POOL_METRIC && e.content.current.Some? &&
        e.content.current.value < 0.7
  }

  function NotPool(): Hypothesis -> bool
  {
    (h: Hypothesis) => h.code != ConnectionPoolExhausted
  }

  function RemoveContradicted(hs: seq<Hypothesis>, evidence: seq<Evidence>): seq<Hypothesis>
  {
    if PoolIsLow(evidence) then Filter(hs, NotPool()) else hs
  }

  lemma PoolRemoved(hs: seq<Hypothesis>, evidence: seq<Evidence>)
    requires PoolIsLow(evidence)
    ensures ConnectionPoolExhausted !in Governance.Codes(RemoveContradicted(hs, evidence))
  {
    FilterMembers(hs, NotPool());
    Governance.CodesMember(RemoveContradicted(hs, evidence), ConnectionPoolExhausted);
  }
}
