/** Incidents, evidence, hypotheses and reports (python/app/domain/incident.py). */
module Domain {
  import opened Collections

  datatype AlertType = P95LatencyHigh | ErrorRateHigh | ThroughputLow | MqLagHigh

  datatype Confidence = High | Medium | Low

  /** Cause codes are strings; Other carries every code the rules do not name. */
  datatype Cause =
    | DatabaseSlowQuery
    | ConnectionPoolExhausted
    | RedisTimeout
    | DownstreamServiceFailure
    | ResourceExhaustion
    | MqConsumerError
    | ApplicationErrorSpike
    | RecentDeploymentRegression
    | Unknown
    | Other(name: string)

  datatype Tool = QueryLogs | QueryMetrics | QueryDeployments | SearchRunbooks | OtherTool(name: string)

  datatype Incident = Incident(id: string, service: string, alertType: AlertType, threshold: real)

  datatype Deployment = Deployment(deployedAt: string, changes: string)

  /** The fields of a tool's answer that the rules read, with Python's
      dict.get defaults; current is None when the answer has no reading. */
  datatype Content = Content(
    logs: seq<string>,
    metric: string,
    current: Option<real>,
    baseline: real,
    deployments: seq<Deployment>
  ) {
    function Current(): real
    {
      match current case Some(v) => v case None => 0.0
    }
  }

  datatype Evidence = Evidence(id: string, source: Tool, content: Content)

  datatype ToolResult = ToolResult(evidenceId: string, content: Content, success: bool, error: string)

  datatype Hypothesis = Hypothesis(
    code: Cause,
    confidence: Confidence,
    supporting: seq<string>,
    contradicting: seq<string>,
    summary: string,
    rank: nat
  )

  /** Step parameters, split into text values and lists of words. */
  datatype PlanStep = PlanStep(tool: Tool, texts: map<string, string>, lists: map<string, seq<string>>)

  datatype Status = Diagnosed | Inconclusive | Failed

  datatype Report = Report(
    incidentId: string,
    status: Status,
    topCauses: seq<Hypothesis>,
    actions: seq<string>,
    toolFailures: seq<string>,
    evidenceIds: set<string>,
    evidenceDetails: seq<Evidence>,
    investigationSteps: nat,
    totalToolCalls: nat
  )

  function UnknownCause(why: string): Hypothesis
  {
    Hypothesis(Unknown, Low, [], [], why, 1)
  }

  function EvidenceIds(evidence: seq<Evidence>): set<string>
  {
    set e | e in evidence :: e.id
  }

  function CitedIds(hs: seq<Hypothesis>): set<string>
  {
    set h, id | h in hs && id in h.supporting + h.contradicting :: id
  }
}
