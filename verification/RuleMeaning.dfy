/** What the rule agent concludes, in terms of what the evidence shows: which answers point at
    which cause, and what that makes of the report (python/app/agent/graph.py). */
module RuleMeaning {
  import opened Collections
  import opened StableSort
  import opened Domain
  import opened Text
  import opened Governance
  import opened Merging
  import opened Investigation
  import A = RuleAgent

  // ---------- What a piece of evidence points at ----------

  predicate Says(e: Evidence, terms: seq<string>)
  {
    e.source == QueryLogs && A.SomeLog(e.content.logs, A.Mentioning(terms))
  }

  predicate SaysSlow(e: Evidence)
  {
    e.source == QueryLogs && A.SomeLog(e.content.logs, A.SlowQueryLog)
  }

  predicate SaysPoolExhausted(e: Evidence)
  {
    e.source == QueryLogs && A.SomeLog(e.content.logs, A.PoolExhaustionLog)
  }

  predicate SaysSaturated(e: Evidence)
  {
    e.source == QueryLogs && A.SomeLog(e.content.logs, A.ResourceLog)
  }

  /** What logs say: some message, in lower case, contains one of the terms. */
  lemma SaysWhat(e: Evidence, terms: seq<string>)
    requires e.source == QueryLogs
    ensures Says(e, terms) <==>
            exists i, k | 0 <= i < |e.content.logs| && 0 <= k < |terms| :: Contains(Lower(e.content.logs[i]), terms[k])
  {
    if Says(e, terms) {
      var i :| 0 <= i < |e.content.logs| && ContainsAny(Lower(e.content.logs[i]), terms);
      var k :| 0 <= k < |terms| && Contains(Lower(e.content.logs[i]), terms[k]);
    }
    if i, k :| 0 <= i < |e.content.logs| && 0 <= k < |terms| && Contains(Lower(e.content.logs[i]), terms[k]) {
      assert A.Mentioning(terms)(e.content.logs[i]);
    }
  }

  lemma SaysSlowWhat(e: Evidence)
    requires e.source == QueryLogs
    ensures SaysSlow(e) <==>
            exists i | 0 <= i < |e.content.logs| ::
              Contains(Lower(e.content.logs[i]), "slow") || Contains(e.content.logs[i], "SQLSlowQuery")
  {}

  lemma SaysSaturatedWhat(e: Evidence)
    requires e.source == QueryLogs
    ensures SaysSaturated(e) <==>
            exists i | 0 <= i < |e.content.logs| ::
              && ContainsAny(Lower(e.content.logs[i]),
                             ["thread pool", "connection pool full", "rate limited", "circuit breaker",
                              "request queued",
                              "rejected"])
              && !ContainsAny(Lower(e.content.logs[i]), ["database", "hikaripool", "redis"])
  {}

  predicate ShowsIdlePool(e: Evidence)
  {
    e.source == QueryMetrics && e.content.metric == "db_pool_active_ratio" &&
    e.content.current.Some? && e.content.current.value < 0.7
  }

  /** The metric reads above the given times its baseline and above the floor. */
  predicate ReadsAbove(e: Evidence, metric: string, times: real, floor: real)
  {
    && e.source == QueryMetrics && e.content.metric == metric
    && e.content.Current() > times * e.content.baseline && e.content.Current() > floor
  }

  predicate Reads(e: Evidence, metric: string, above: real)
  {
    e.source == QueryMetrics && e.content.metric == metric && e.content.Current() > above
  }

  predicate LatencyJumps(e: Evidence)
  {
    e.source == QueryMetrics && e.content.metric == "latency_p95" && e.content.Current() > 5.0 * e.content.baseline
  }

  /** A deployment was recent, and the first such one changed something faulty or not. */
  predicate Deployed(e: Evidence, recent: A.Recent, faulty: bool)
  {
    e.source == QueryDeployments &&
    exists i | 0 <= i < |e.content.deployments| ::
      && recent(e.content.deployments[i].deployedAt)
      && (forall j | 0 <= j < i :: !recent(e.content.deployments[j].deployedAt))
      && (faulty <==> ContainsAny(Lower(e.content.deployments[i].changes), ["null", "npe", "exception", "error"]))
  }

  /** What logs point at. */
  predicate LogsTell(e: Evidence, code: Cause, c: Confidence)
  {
    match code
    case DatabaseSlowQuery => c == High && SaysSlow(e)
    case ConnectionPoolExhausted => c == High && SaysPoolExhausted(e)
    case RedisTimeout => c == Medium && Says(e, ["redis"])
    case DownstreamServiceFailure => c == Medium && Says(e, ["503", "unavailable", "downstream"])
    case ResourceExhaustion => c == High && SaysSaturated(e)
    case MqConsumerError => c == High && Says(e, ["mq", "consumer lag", "message backlog"])
    case ApplicationErrorSpike => c == High && Says(e, ["configuration", "config", "property"])
    case RecentDeploymentRegression => c == High && Says(e, ["nullpointerexception", " after deploying "])
    case _ => false
  }

  /** What a metric points at. */
  predicate MetricTells(incident: Incident, e: Evidence, code: Cause, c: Confidence)
  {
    var s := incident.service;
    match code
    case DatabaseSlowQuery => c == Medium && s == "order-service" && LatencyJumps(e)
    case ConnectionPoolExhausted => c == High && Reads(e, "db_pool_active_ratio", 0.9)
    case RedisTimeout =>
      || (c == Medium && Contains(s, "inventory") && s != "order-service" && LatencyJumps(e))
      || (c == High && ReadsAbove(e, "redis_latency_p95", 5.0, 500.0))
    case DownstreamServiceFailure =>
      || (c == Medium && Contains(s, "payment") && !Contains(s, "inventory") && s != "order-service" && LatencyJumps(e))
      || (c == High && ReadsAbove(e, "downstream_latency_p95", 5.0, 1000.0))
    case ResourceExhaustion =>
      c == High && (Reads(e, "http_pool_active_ratio", 0.9) || Reads(e, "jvm_thread_pool_active_ratio", 0.9))
    case MqConsumerError => c == High && ReadsAbove(e, "mq_lag", 10.0, 5000.0)
    case ApplicationErrorSpike => c == Medium && Reads(e, "error_rate", 0.05)
    case _ => false
  }

  /** What a list of deployments points at. */
  predicate DeploymentsTell(e: Evidence, recent: A.Recent, code: Cause, c: Confidence)
  {
    code == RecentDeploymentRegression &&
      ((c == High && Deployed(e, recent, true)) || (c == Low && Deployed(e, recent, false)))
  }

  /** The evidence points at the cause with the given confidence. */
  predicate Points(incident: Incident, e: Evidence, recent: A.Recent, code: Cause, c: Confidence)
  {
    LogsTell(e, code, c) || MetricTells(incident, e, code, c) || DeploymentsTell(e, recent, code, c)
  }

  // ---------- The rules find exactly that ----------

  lemma ClaimedBacked(b: Cause, d: Confidence, e: Evidence, code: Cause, c: Confidence)
    ensures Claimed([A.Backed(b, d, e)], code, c) <==> b == code && d == c
  {
    assert A.Backed(b, d, e) in [A.Backed(b, d, e)];
  }

  lemma {:induction false} ApplicableMember(rules: seq<(bool, Hypothesis)>, h: Hypothesis)
    ensures h in A.Applicable(rules) <==> exists k :: 0 <= k < |rules| && rules[k].0 && rules[k].1 == h
  {
    if rules != [] {
      var n := |rules| - 1;
      ApplicableMember(rules[..n], h);
      if k :| 0 <= k < |rules| && rules[k].0 && rules[k].1 == h {
        assert k < n ==> rules[..n][k] == rules[k];
      }
      if k :| 0 <= k < n && rules[..n][k].0 && rules[..n][k].1 == h {
        assert rules[k] == rules[..n][k];
      }
    }
  }

  lemma ApplicableClaims(rules: seq<(bool, Hypothesis)>, code: Cause, c: Confidence)
    ensures Claimed(A.Applicable(rules), code, c) <==>
            exists k :: 0 <= k < |rules| && rules[k].0 && rules[k].1.code == code && rules[k].1.confidence == c
  {
    if h :| h in A.Applicable(rules) && h.code == code && h.confidence == c {
      ApplicableMember(rules, h);
    }
    if k :| 0 <= k < |rules| && rules[k].0 && rules[k].1.code == code && rules[k].1.confidence == c {
      ApplicableMember(rules, rules[k].1);
    }
  }

  lemma TermLists()
    ensures A.REDIS_TERMS == ["redis"] && A.DOWNSTREAM_TERMS == ["503", "unavailable", "downstream"]
    ensures A.MQ_TERMS == ["mq", "consumer lag", "message backlog"]
    ensures A.CONFIGURATION_TERMS == ["configuration", "config", "property"]
    ensures A.DEPLOYMENT_TERMS == ["nullpointerexception", " after deploying "]
  {}

  lemma FirstRulesTell(e: Evidence, k: nat)
    requires e.source == QueryLogs && k < 4 && A.LogRules(e)[k].0
    ensures LogsTell(e, A.LogRules(e)[k].1.code, A.LogRules(e)[k].1.confidence)
  {
    TermLists();
  }

  lemma LastRulesTell(e: Evidence, k: nat)
    requires e.source == QueryLogs && 4 <= k < 8 && A.LogRules(e)[k].0
    ensures LogsTell(e, A.LogRules(e)[k].1.code, A.LogRules(e)[k].1.confidence)
  {
    TermLists();
  }

  /** The log rule for a cause. */
  function RuleNumber(code: Cause): nat
  {
    match code
    case DatabaseSlowQuery => 0
    case ConnectionPoolExhausted => 1
    case RedisTimeout => 2
    case DownstreamServiceFailure => 3
    case ResourceExhaustion => 4
    case MqConsumerError => 5
    case ApplicationErrorSpike => 6
    case _ => 7
  }

  lemma ToldRule(e: Evidence, code: Cause, c: Confidence)
    requires LogsTell(e, code, c)
    ensures var rule := A.LogRules(e)[RuleNumber(code)]; rule.0 && rule.1.code == code && rule.1.confidence == c
  {
    TermLists();
  }

  lemma LogsPoint(e: Evidence, code: Cause, c: Confidence)
    requires e.source == QueryLogs
    ensures Claimed(A.LogCauses(e), code, c) <==> LogsTell(e, code, c)
  {
    ApplicableClaims(A.LogRules(e), code, c);
    if Claimed(A.LogCauses(e), code, c) {
      var rules := A.LogRules(e);
      var k :| 0 <= k < |rules| && rules[k].0 && rules[k].1.code == code && rules[k].1.confidence == c;
      if k < 4 {
        FirstRulesTell(e, k);
      } else {
        LastRulesTell(e, k);
      }
    }
    if LogsTell(e, code, c) {
      ToldRule(e, code, c);
    }
  }

  lemma MetricsPoint(incident: Incident, e: Evidence, code: Cause, c: Confidence)
    requires e.source == QueryMetrics
    ensures Claimed(A.MetricCauses(incident, e), code, c) <==> MetricTells(incident, e, code, c)
  {
    var found := A.MetricCauses(incident, e);
    if found != [] {
      MetricFound(incident, e);
      ClaimedBacked(found[0].code, found[0].confidence, e, code, c);
    }
    if MetricTells(incident, e, code, c) {
      MetricTold(incident, e, code, c);
    }
  }

  lemma MetricFound(incident: Incident, e: Evidence)
    requires e.source == QueryMetrics && A.MetricCauses(incident, e) != []
    ensures var h := A.MetricCauses(incident, e)[0];
            A.MetricCauses(incident, e) == [A.Backed(h.code, h.confidence, e)] &&
              MetricTells(incident, e, h.code, h.confidence)
  {
    assert e.content.baseline * 5.0 == 5.0 * e.content.baseline;
    assert e.content.baseline * 10.0 == 10.0 * e.content.baseline;
  }

  lemma MetricTold(incident: Incident, e: Evidence, code: Cause, c: Confidence)
    requires MetricTells(incident, e, code, c)
    ensures A.MetricCauses(incident, e) == [A.Backed(code, c, e)]
  {
    assert e.content.baseline * 5.0 == 5.0 * e.content.baseline;
    assert e.content.baseline * 10.0 == 10.0 * e.content.baseline;
  }

  lemma {:induction false} FirstRecent(ds: seq<Deployment>, recent: A.Recent) returns (i: nat)
    requires Filter(ds, A.RecentOnes(recent)) != []
    ensures i < |ds| && recent(ds[i].deployedAt) && Filter(ds, A.RecentOnes(recent))[0] == ds[i]
    ensures forall j | 0 <= j < i :: !recent(ds[j].deployedAt)
  {
    var n := |ds| - 1;
    if Filter(ds[..n], A.RecentOnes(recent)) != [] {
      i := FirstRecent(ds[..n], recent);
    } else {
      i := n;
      forall j | 0 <= j < n ensures !recent(ds[j].deployedAt)
      {
        FilterMembers(ds[..n], A.RecentOnes(recent));
        assert ds[j] in ds[..n];
      }
    }
  }

  lemma DeploymentsPoint(e: Evidence, recent: A.Recent, code: Cause, c: Confidence)
    requires e.source == QueryDeployments
    ensures Claimed(A.DeploymentCauses(e, recent), code, c) <==> DeploymentsTell(e, recent, code, c)
  {
    var latest := Filter(e.content.deployments, A.RecentOnes(recent));
    if latest == [] {
      NoneRecent(e, recent);
    } else {
      var i := FirstRecent(e.content.deployments, recent);
      var faulty := ContainsAny(Lower(latest[0].changes), ["null", "npe", "exception", "error"]);
      DeployedAt(e, recent, i, faulty);
      ClaimedBacked(RecentDeploymentRegression, if faulty then High else Low, e, code, c);
    }
  }

  lemma NoneRecent(e: Evidence, recent: A.Recent)
    requires Filter(e.content.deployments, A.RecentOnes(recent)) == []
    ensures !Deployed(e, recent, true) && !Deployed(e, recent, false)
  {
    FilterMembers(e.content.deployments, A.RecentOnes(recent));
    forall i | 0 <= i < |e.content.deployments| ensures !recent(e.content.deployments[i].deployedAt)
    {
      assert e.content.deployments[i] in e.content.deployments;
    }
  }

  lemma DeployedAt(e: Evidence, recent: A.Recent, i: nat, faulty: bool)
    requires e.source == QueryDeployments && i < |e.content.deployments| && recent(e.content.deployments[i].deployedAt)
    requires forall j | 0 <= j < i :: !recent(e.content.deployments[j].deployedAt)
    requires faulty <==> ContainsAny(Lower(e.content.deployments[i].changes), ["null", "npe", "exception", "error"])
    ensures Deployed(e, recent, faulty) && !Deployed(e, recent, !faulty)
  {}

  /** The rules claim a cause with a confidence exactly where the evidence points at it. */
  lemma RulesPoint(incident: Incident, e: Evidence, recent: A.Recent, code: Cause, c: Confidence)
    ensures Claimed(A.Causes(incident, e, recent), code, c) <==> Points(incident, e, recent, code, c)
  {
    match e.source
    case QueryLogs => LogsPoint(e, code, c);
    case QueryMetrics => MetricsPoint(incident, e, code, c);
    case QueryDeployments => DeploymentsPoint(e, recent, code, c);
    case _ =>
  }

  // ---------- All the evidence ----------

  ghost predicate Pointed(incident: Incident, evidence: seq<Evidence>, recent: A.Recent, code: Cause, c: Confidence)
  {
    exists e :: e in evidence && Points(incident, e, recent, code, c)
  }

  lemma PointedAppend(incident: Incident, before: seq<Evidence>, e: Evidence, recent: A.Recent, code: Cause,
                      c: Confidence)
    ensures Pointed(incident, before + [e], recent, code, c) <==>
            Pointed(incident, before, recent, code, c) || Points(incident, e, recent, code, c)
  {
    assert e in before + [e];
    if Pointed(incident, before, recent, code, c) {
      var d :| d in before && Points(incident, d, recent, code, c);
      assert d in before + [e];
    }
  }

  /** All rules together claim a cause with a confidence exactly where some collected piece
      of evidence points at it. */
  lemma {:induction false} AllPoint(incident: Incident, evidence: seq<Evidence>, recent: A.Recent, code: Cause,
                                    c: Confidence)
    ensures Claimed(A.AllCauses(incident, evidence, recent), code, c) <==> Pointed(incident, evidence, recent, code, c)
  {
    if evidence != [] {
      var n := |evidence| - 1;
      AllPoint(incident, evidence[..n], recent, code, c);
      assert evidence == evidence[..n] + [evidence[n]];
      PointedAppend(incident, evidence[..n], evidence[n], recent, code, c);
      ClaimedConcat(A.AllCauses(incident, evidence[..n], recent), A.Causes(incident, evidence[n], recent), code, c);
      RulesPoint(incident, evidence[n], recent, code, c);
    }
  }

  lemma ClaimedConcat(xs: seq<Hypothesis>, ys: seq<Hypothesis>, code: Cause, c: Confidence)
    ensures Claimed(xs + ys, code, c) <==> Claimed(xs, code, c) || Claimed(ys, code, c)
  {
    if Claimed(xs, code, c) {
      var h :| h in xs && h.code == code && h.confidence == c;
      assert h in xs + ys;
    }
    if Claimed(ys, code, c) {
      var h :| h in ys && h.code == code && h.confidence == c;
      assert h in xs + ys;
    }
  }

  /** Supported by collected evidence alone. */
  ghost predicate Grounded(h: Hypothesis, ids: set<string>)
  {
    h.supporting != [] && h.contradicting == [] && forall id | id in h.supporting :: id in ids
  }

  ghost predicate AllGrounded(hs: seq<Hypothesis>, ids: set<string>)
  {
    forall i :: 0 <= i < |hs| ==> Grounded(hs[i], ids)
  }

  lemma {:induction false} ApplicableGrounded(rules: seq<(bool, Hypothesis)>, ids: set<string>)
    requires forall k :: 0 <= k < |rules| ==> Grounded(rules[k].1, ids)
    ensures AllGrounded(A.Applicable(rules), ids)
  {
    if rules != [] {
      ApplicableGrounded(rules[..|rules| - 1], ids);
    }
  }

  lemma CausesGrounded(incident: Incident, e: Evidence, recent: A.Recent, ids: set<string>)
    requires e.id in ids
    ensures AllGrounded(A.Causes(incident, e, recent), ids)
  {
    if e.source == QueryLogs {
      ApplicableGrounded(A.LogRules(e), ids);
    }
  }

  lemma {:induction false} AllCausesGrounded(incident: Incident, evidence: seq<Evidence>, recent: A.Recent,
                                             ids: set<string>)
    requires forall e | e in evidence :: e.id in ids
    ensures AllGrounded(A.AllCauses(incident, evidence, recent), ids)
  {
    if evidence != [] {
      var n := |evidence| - 1;
      AllCausesGrounded(incident, evidence[..n], recent, ids);
      assert evidence[n] in evidence;
      CausesGrounded(incident, evidence[n], recent, ids);
    }
  }

  lemma CombineGrounded(have: Hypothesis, more: Hypothesis, ids: set<string>)
    requires Grounded(have, ids) && Grounded(more, ids)
    ensures Grounded(Combine(Rules, have, more), ids)
  {
    AddMissingIds(have.supporting, more.supporting);
    AddMissingIds(have.contradicting, more.contradicting);
  }

  lemma {:induction false} MergeGrounded(hs: seq<Hypothesis>, ids: set<string>)
    requires AllGrounded(hs, ids)
    ensures AllGrounded(Merge(Rules, hs), ids)
  {
    if hs != [] {
      var n := |hs| - 1;
      MergeGrounded(hs[..n], ids);
      var table := Merge(Rules, hs[..n]);
      var i := Find(table, hs[n].code);
      if i < |table| {
        CombineGrounded(table[i], hs[n], ids);
      }
    }
  }

  // ---------- The merged causes ----------

  /** The highest confidence with which evidence points at a cause. */
  ghost predicate BestPointed(incident: Incident, evidence: seq<Evidence>, recent: A.Recent, code: Cause, c: Confidence)
  {
    && Pointed(incident, evidence, recent, code, c)
    && forall d :: A.MoreConfident(d, c) ==> !Pointed(incident, evidence, recent, code, d)
  }

  function Merged(incident: Incident, evidence: seq<Evidence>, recent: A.Recent): seq<Hypothesis>
  {
    Merge(Rules, A.AllCauses(incident, evidence, recent))
  }

  /** The merged causes are those the evidence points at, each once, with the highest
      confidence with which it does, supported by collected evidence. */
  lemma MergedPointed(incident: Incident, evidence: seq<Evidence>, recent: A.Recent)
    ensures var m := Merged(incident, evidence, recent);
            && DistinctKeys(m, CodeOf()) && AllGrounded(m, EvidenceIds(evidence))
            && (forall i :: 0 <= i < |m| ==> BestPointed(incident, evidence, recent, m[i].code, m[i].confidence))
            && (forall code, c | Pointed(incident, evidence, recent, code, c) :: code in Codes(m))
  {
    var all, m := A.AllCauses(incident, evidence, recent), Merged(incident, evidence, recent);
    MergeDistinct(Rules, all);
    AllCausesGrounded(incident, evidence, recent, EvidenceIds(evidence));
    MergeGrounded(all, EvidenceIds(evidence));
    MergeRefines(Rules, all);
    forall i | 0 <= i < |m| ensures BestPointed(incident, evidence, recent, m[i].code, m[i].confidence)
    {
      EntryFacts(m, i);
      BestIsPointed(incident, evidence, recent, m[i].code);
      assert Digest(all)[m[i].code].confidence == Best(all, m[i].code);
    }
    forall code, c | Pointed(incident, evidence, recent, code, c) ensures code in Codes(m)
    {
      AllPoint(incident, evidence, recent, code, c);
      var h :| h in all && h.code == code && h.confidence == c;
      CodesMember(all, code);
      assert code in Digest(all);
      assert code in Digest(m);
    }
  }

  lemma BestIsPointed(incident: Incident, evidence: seq<Evidence>, recent: A.Recent, code: Cause)
    requires code in Codes(A.AllCauses(incident, evidence, recent))
    ensures BestPointed(incident, evidence, recent, code, Best(A.AllCauses(incident, evidence, recent), code))
  {
    var all := A.AllCauses(incident, evidence, recent);
    CodesMember(all, code);
    var h :| h in all && h.code == code;
    assert Claimed(all, code, h.confidence);
    AllPoint(incident, evidence, recent, code, High);
    AllPoint(incident, evidence, recent, code, Medium);
    AllPoint(incident, evidence, recent, code, Low);
  }

  // ---------- The first cause ----------

  lemma {:induction false} FilterFirst<T>(xs: seq<T>, p: T -> bool, i: nat)
    requires i < |xs| && p(xs[i]) && forall j :: 0 <= j < i ==> !p(xs[j])
    ensures Filter(xs, p) != [] && Filter(xs, p)[0] == xs[i]
  {
    var n := |xs| - 1;
    if i < n {
      FilterFirst(xs[..n], p, i);
    } else {
      FilterNone(xs[..n], p);
    }
  }

  /** Cause i is the first among the most confident ones. */
  ghost predicate Leads(hs: seq<Hypothesis>, i: nat)
  {
    && i < |hs|
    && (forall j :: 0 <= j < |hs| ==> !A.MoreConfident(hs[j].confidence, hs[i].confidence))
    && (forall j :: 0 <= j < i ==> A.MoreConfident(hs[i].confidence, hs[j].confidence))
  }

  lemma LeaderIsKept(hs: seq<Hypothesis>, kept: seq<Hypothesis>, i: nat)
    requires Leads(hs, i) && A.KeepsMostConfident(hs, kept)
    ensures kept != [] && kept[0] == hs[i]
  {
    var c := hs[i].confidence;
    assert multiset(kept)[kept[0]] > 0;
    assert kept[0] in hs;
    assert hs[i] in kept || LeftOut(hs, kept, hs[i]);
    assert kept[0].confidence == c;
    FilterHead(kept, A.With(c));
    FilterFirst(hs, A.With(c), i);
    assert Filter(kept, A.With(c)) <= Filter(hs, A.With(c));
  }

  /** Deployment answers leave a cause as it is unless one of them is quiet and the cause is
      the deployment. */
  lemma {:induction false} Undoubted(hs: seq<Hypothesis>, evidence: seq<Evidence>, recent: A.Recent)
    requires hs != []
    requires hs[0].code != RecentDeploymentRegression || forall e | e in evidence :: !A.QuietDeployments(e, recent)
    ensures A.Verified(hs, evidence, recent)[0] == hs[0]
  {
    if evidence != [] {
      var n := |evidence| - 1;
      assert evidence[n] in evidence;
      Undoubted(hs, evidence[..n], recent);
    }
  }

  /** The merged causes that no low pool metric contradicts. */
  function Standing(incident: Incident, evidence: seq<Evidence>, recent: A.Recent): seq<Hypothesis>
  {
    RemoveContradicted(Merged(incident, evidence, recent), evidence)
  }

  lemma StandsIn(hs: seq<Hypothesis>, evidence: seq<Evidence>, i: nat) returns (k: nat)
    requires i < |RemoveContradicted(hs, evidence)|
    ensures k < |hs| && hs[k] == RemoveContradicted(hs, evidence)[i]
  {
    FilterMembers(hs, NotPool());
    assert RemoveContradicted(hs, evidence)[i] in hs;
    k :| 0 <= k < |hs| && hs[k] == RemoveContradicted(hs, evidence)[i];
  }

  lemma StandingGrounded(incident: Incident, evidence: seq<Evidence>, recent: A.Recent)
    ensures AllGrounded(Standing(incident, evidence, recent), EvidenceIds(evidence))
  {
    var m, s := Merged(incident, evidence, recent), Standing(incident, evidence, recent);
    MergedPointed(incident, evidence, recent);
    forall i | 0 <= i < |s| ensures Grounded(s[i], EvidenceIds(evidence))
    {
      var k := StandsIn(m, evidence, i);
      assert Grounded(m[k], EvidenceIds(evidence));
    }
  }

  lemma BuiltFirst(incident: Incident, evidence: seq<Evidence>, built: A.Recent, i: nat)
    requires Leads(Standing(incident, evidence, built), i)
    ensures var hs := A.Hypotheses(incident, evidence, built);
            hs != [] && hs[0] == Standing(incident, evidence, built)[i].(rank := 1) &&
            Grounded(hs[0], EvidenceIds(evidence))
  {
    var s := Standing(incident, evidence, built);
    StandingGrounded(incident, evidence, built);
    A.SortKeepsMostConfident(s);
    LeaderIsKept(s, Cut(Sort(s, A.ConfidenceOrder())), i);
    assert Grounded(s[i], EvidenceIds(evidence));
  }

  /** The first reported cause is the first of the most confident causes the evidence points
      at, unless it is the deployment and a deployment answer is quiet; the report is
      DIAGNOSED exactly when that confidence is not LOW. */
  lemma LeaderIsReported(incident: Incident, evidence: seq<Evidence>, failures: seq<string>, calls: nat,
                         built: A.Recent,
                         verified: A.Recent, i: nat)
    requires Leads(Standing(incident, evidence, built), i)
    requires Standing(incident, evidence, built)[i].code != RecentDeploymentRegression ||
             forall e | e in evidence :: !A.QuietDeployments(e, verified)
    ensures var r, h := A.ReportOf(incident, evidence, failures, calls, built, verified),
            Standing(incident, evidence, built)[i];
            && r.topCauses != [] && r.topCauses[0].code == h.code && r.topCauses[0].confidence == h.confidence
            && (r.status == Diagnosed <==> h.confidence != Low)
  {
    var hs := A.Hypotheses(incident, evidence, built);
    BuiltFirst(incident, evidence, built, i);
    Undoubted(hs, evidence, verified);
    var v := A.Verified(hs, evidence, verified);
    var id := v[0].supporting[0];
    ValidationKeepsHead(v, evidence, id);
    ValidationEstablishes(v, evidence);
    VerdictOfValidated(v, evidence, true);
  }

  lemma StandingPointed(incident: Incident, evidence: seq<Evidence>, recent: A.Recent, i: nat)
    requires i < |Standing(incident, evidence, recent)|
    ensures var h := Standing(incident, evidence, recent)[i]; Pointed(incident, evidence, recent, h.code, h.confidence)
  {
    var m := Merged(incident, evidence, recent);
    MergedPointed(incident, evidence, recent);
    var l := StandsIn(m, evidence, i);
    assert BestPointed(incident, evidence, recent, m[l].code, m[l].confidence);
  }

  lemma KeptAt(hs: seq<Hypothesis>, evidence: seq<Evidence>, j: nat) returns (k: nat)
    requires j < |hs| && !(hs[j].code == ConnectionPoolExhausted && PoolIsLow(evidence))
    ensures k < |RemoveContradicted(hs, evidence)| && RemoveContradicted(hs, evidence)[k] == hs[j]
  {
    FilterMembers(hs, NotPool());
    assert hs[j] in hs;
    k :| 0 <= k < |RemoveContradicted(hs, evidence)| && RemoveContradicted(hs, evidence)[k] == hs[j];
  }

  lemma HighIsBest(incident: Incident, evidence: seq<Evidence>, recent: A.Recent, code: Cause, c: Confidence)
    requires BestPointed(incident, evidence, recent, code, c) && Pointed(incident, evidence, recent, code, High)
    ensures c == High
  {
    assert A.MoreConfident(High, c) || c == High;
  }

  lemma StandingHigh(incident: Incident, evidence: seq<Evidence>, recent: A.Recent, code: Cause) returns (k: nat)
    requires Pointed(incident, evidence, recent, code, High) &&
             !(code == ConnectionPoolExhausted && PoolIsLow(evidence))
    ensures k < |Standing(incident, evidence, recent)| && Standing(incident, evidence, recent)[k].confidence == High
  {
    var m := Merged(incident, evidence, recent);
    MergedPointed(incident, evidence, recent);
    var j :| 0 <= j < |m| && Codes(m)[j] == code;
    HighIsBest(incident, evidence, recent, code, m[j].confidence);
    k := KeptAt(m, evidence, j);
  }

  lemma FirstHigh(hs: seq<Hypothesis>, k: nat) returns (i: nat)
    requires k < |hs| && hs[k].confidence == High
    ensures Leads(hs, i) && hs[i].confidence == High
  {
    i := 0;
    while hs[i].confidence != High
      invariant i <= k && forall j :: 0 <= j < i ==> hs[j].confidence != High
      decreases k - i
    {
      i := i + 1;
    }
  }

  /** Strong evidence decides: when some collected piece points at a cause with HIGH
      confidence, and no low pool metric contradicts that cause, the report is DIAGNOSED and
      its first cause is HIGH and pointed at with HIGH confidence; provided no deployment
      answer is quiet, or nothing points at the deployment with HIGH confidence. */
  lemma StrongEvidenceDiagnoses(incident: Incident, evidence: seq<Evidence>, failures: seq<string>, calls: nat,
                                built: A.Recent, verified: A.Recent, e: Evidence, code: Cause)
    requires e in evidence && Points(incident, e, built, code, High)
    requires !(code == ConnectionPoolExhausted && exists d :: d in evidence && ShowsIdlePool(d))
    requires !Pointed(incident, evidence, built, RecentDeploymentRegression, High) ||
             forall d | d in evidence :: !A.QuietDeployments(d, verified)
    ensures var r := A.ReportOf(incident, evidence, failures, calls, built, verified);
            && r.status == Diagnosed && r.topCauses != [] && r.topCauses[0].confidence == High
            && Pointed(incident, evidence, built, r.topCauses[0].code, High)
  {
    assert Pointed(incident, evidence, built, code, High);
    assert PoolIsLow(evidence) ==> exists d :: d in evidence && ShowsIdlePool(d);
    var k := StandingHigh(incident, evidence, built, code);
    var i := FirstHigh(Standing(incident, evidence, built), k);
    StandingPointed(incident, evidence, built, i);
    LeaderIsReported(incident, evidence, failures, calls, built, verified, i);
  }

  lemma ReportedStands(incident: Incident, evidence: seq<Evidence>, built: A.Recent, verified: A.Recent, h: Hypothesis)
    requires h in A.FinalCauses(incident, evidence, built, verified) && h.code != Unknown
    ensures h.code in Codes(Standing(incident, evidence, built))
  {
    var hs := A.Hypotheses(incident, evidence, built);
    ValidationEstablishes(A.Verified(hs, evidence, verified), evidence);
    A.VerifiedCodes(hs, evidence, verified);
    BuiltStands(incident, evidence, built, h.code);
  }

  lemma BuiltStands(incident: Incident, evidence: seq<Evidence>, built: A.Recent, code: Cause)
    requires code in Codes(A.Hypotheses(incident, evidence, built)) && code != Unknown
    ensures code in Codes(Standing(incident, evidence, built))
  {
    if code !in Codes(Standing(incident, evidence, built)) {
      A.SortedCodes(Standing(incident, evidence, built), code);
    }
  }

  /** The report names no cause the evidence does not point at, but UNKNOWN. */
  lemma OnlyPointedReported(incident: Incident, evidence: seq<Evidence>, failures: seq<string>, calls: nat,
                            built: A.Recent, verified: A.Recent, h: Hypothesis)
    requires h in A.ReportOf(incident, evidence, failures, calls, built, verified).topCauses && h.code != Unknown
    ensures exists c :: Pointed(incident, evidence, built, h.code, c)
  {
    var s := Standing(incident, evidence, built);
    ReportedStands(incident, evidence, built, verified, h);
    var i :| 0 <= i < |s| && Codes(s)[i] == h.code;
    StandingPointed(incident, evidence, built, i);
  }

  // ---------- The plan, the doubts and the advice ----------

  ghost predicate AsksMetric(plan: seq<PlanStep>, service: string, metric: string)
  {
    exists s :: s in plan && s.tool == QueryMetrics && Param(s, "service") == service && Param(s, "metric") == metric
  }

  lemma PlanSteps(incident: Incident)
    ensures var plan := A.Plan(incident);
            && 2 <= |plan| <= 4
            && (forall s :: s in plan <==>
                  s == plan[0] || s == plan[1] || (|plan| > 2 && s == plan[2]) || (|plan| > 3 && s == plan[3]))
  {}

  /** The metrics each kind of alert asks for, of the incident's own service. */
  lemma MetricsAsked(incident: Incident, metric: string)
    ensures AsksMetric(A.Plan(incident), incident.service, metric) <==>
            match incident.alertType
            case P95LatencyHigh => metric == "latency_p95" || metric == "db_pool_active_ratio"
            case ErrorRateHigh => metric == "error_rate"
            case ThroughputLow => metric == "request_rate" || metric == "redis_latency_p95"
            case MqLagHigh => metric == "mq_lag"
  {
    PlanSteps(incident);
  }

  /** A quiet deployment answer makes every deployment cause LOW and speaks against it; every
      other cause, and every cause when no answer is quiet, stays as it is. */
  lemma {:induction false} QuietDemotes(hs: seq<Hypothesis>, evidence: seq<Evidence>, recent: A.Recent, i: nat)
    requires i < |hs|
    ensures var h, v := hs[i], A.Verified(hs, evidence, recent)[i];
            if h.code == RecentDeploymentRegression && exists e :: e in evidence && IsQuiet(e, recent)
            then v.code == h.code && v.confidence == Low && v.supporting == h.supporting &&
                 forall e | e in evidence && IsQuiet(e, recent) :: e.id in v.contradicting
            else v == h
  {
    if evidence != [] {
      var n := |evidence| - 1;
      QuietDemotes(hs, evidence[..n], recent, i);
      assert evidence == evidence[..n] + [evidence[n]];
      QuietExactly(evidence[n], recent);
    }
  }

  /** A deployment answer without any recent deployment. */
  predicate IsQuiet(e: Evidence, recent: A.Recent)
  {
    e.source == QueryDeployments &&
      forall i | 0 <= i < |e.content.deployments| :: !recent(e.content.deployments[i].deployedAt)
  }

  lemma QuietExactly(e: Evidence, recent: A.Recent)
    ensures A.QuietDeployments(e, recent) <==> IsQuiet(e, recent)
  {
    var ds := e.content.deployments;
    FilterMembers(ds, A.RecentOnes(recent));
    if IsQuiet(e, recent) {
      FilterNone(ds, A.RecentOnes(recent));
    }
    assert forall i :: 0 <= i < |ds| ==> ds[i] in ds;
  }

  /** What is advised for a cause. */
  predicate Advises(code: Cause, action: string)
  {
    match code
    case DatabaseSlowQuery =>
      || action == "Check for missing database indexes (EXPLAIN ANALYZE on slow queries)"
      || action == "Review query execution plans and optimize N+1 queries"
    case ConnectionPoolExhausted =>
      || action == "Increase HikariCP maximum pool size"
      || action == "Check for connection leaks (long-running transactions)"
      || action == "Review slow queries holding connections"
    case RedisTimeout =>
      || action == "Check Redis server health and memory usage"
      || action == "Increase connection pool size (spring.redis.pool.max-active)"
      || action == "Review for slow Redis commands (KEYS, large value scans)"
    case DownstreamServiceFailure =>
      || action == "Check downstream service health endpoints"
      || action == "Verify circuit breaker configuration and fallback behavior"
      || action == "Review downstream service logs for root cause"
    case RecentDeploymentRegression =>
      || action == "Review recent deployment changes (git diff)"
      || action == "Consider rollback if regression confirmed"
      || action == "Check configuration changes in the deployment"
    case ApplicationErrorSpike =>
      || action == "Review application logs for error patterns"
      || action == "Check resource utilization (CPU, memory, threads)"
    case ResourceExhaustion =>
      || action == "Check thread pools, HTTP client pools, and rate-limit/circuit-breaker settings"
      || action == "Reduce saturation or raise pool limits after validating traffic demand"
    case MqConsumerError =>
      || action == "Check consumer error logs and message backlog"
      || action == "Scale consumers or inspect poison messages blocking progress"
    case _ => false
  }

  lemma DataAdvice(code: Cause, action: string)
    requires code == DatabaseSlowQuery || code == ConnectionPoolExhausted || code == RedisTimeout
    ensures action in A.KnownActions(code) <==> Advises(code, action)
  {}

  lemma ServiceAdvice(code: Cause, action: string)
    requires code == DownstreamServiceFailure || code == RecentDeploymentRegression || code == ApplicationErrorSpike
    ensures action in A.KnownActions(code) <==> Advises(code, action)
  {}

  lemma CapacityAdvice(code: Cause, action: string)
    requires code == ResourceExhaustion || code == MqConsumerError || code == Unknown || code.Other?
    ensures action in A.KnownActions(code) <==> Advises(code, action)
  {}

  lemma KnownAdvice(code: Cause, action: string)
    ensures action in A.KnownActions(code) <==> Advises(code, action)
  {
    match code
    case DatabaseSlowQuery => DataAdvice(code, action);
    case ConnectionPoolExhausted => DataAdvice(code, action);
    case RedisTimeout => DataAdvice(code, action);
    case DownstreamServiceFailure => ServiceAdvice(code, action);
    case RecentDeploymentRegression => ServiceAdvice(code, action);
    case ApplicationErrorSpike => ServiceAdvice(code, action);
    case _ => CapacityAdvice(code, action);
  }

  lemma {:induction false} AdviceListed(hs: seq<Hypothesis>, action: string)
    ensures action in A.ActionsFor(hs) <==> exists h :: h in hs && Advises(h.code, action)
  {
    if action in A.ActionsFor(hs) {
      var i := FlatMapMember(hs, A.Advice(), action);
      KnownAdvice(hs[i].code, action);
      assert hs[i] in hs;
    }
    if h :| h in hs && Advises(h.code, action) {
      var i :| 0 <= i < |hs| && hs[i] == h;
      KnownAdvice(h.code, action);
      FlatMapKeeps(hs, A.Advice(), i, action);
    }
  }

  /** Exactly what is advised for the reported causes is recommended, each action once; only
      when nothing is, more evidence is asked for. */
  lemma AdviceFollows(hs: seq<Hypothesis>, action: string)
    ensures DistinctKeys(A.Actions(hs), Same())
    ensures action in A.Actions(hs) <==>
            || (exists h :: h in hs && Advises(h.code, action))
            || (action == "Gather more evidence - current data insufficient for confident diagnosis" &&
                forall h, a | h in hs :: !Advises(h.code, a))
  {
    var listed := A.ActionsFor(hs);
    UniqueIds(listed);
    FirstOccurrencesDistinct(listed, Same());
    AdviceListed(hs, action);
    if Unique(listed) == [] {
      forall h, a | h in hs ensures !Advises(h.code, a)
      {
        AdviceListed(hs, a);
        assert a !in Unique(listed);
      }
    } else {
      AdviceListed(hs, listed[0]);
      assert Unique(listed)[0] in Unique(listed);
    }
  }

  /** The words looked for in the logs. */
  lemma WordsLookedFor(incident: Incident, s: PlanStep)
    requires s in A.Plan(incident) && s.tool == QueryLogs
    ensures s.lists == map["keywords" :=
              match incident.alertType
              case P95LatencyHigh => ["slow", "timeout", "error"]
              case ErrorRateHigh => ["error", "exception", "fail"]
              case ThroughputLow => ["timeout", "blocked", "reject"]
              case MqLagHigh => ["consumer", "lag", "error"]]
  {
    PlanSteps(incident);
  }

  /** An unsupported first cause trades places with the first supported one; nothing else
      moves. */
  lemma SwapMeans(hs: seq<Hypothesis>, i: nat)
    requires i < |hs| && hs[i].supporting != [] && forall j :: 0 <= j < i ==> hs[j].supporting == []
    ensures A.SwapUnsupported(hs) == hs[0 := hs[i]][i := hs[0]]
  {
    FirstSupportedAt(hs, i);
    if i == 0 {
      assert hs[0 := hs[0]][0 := hs[0]] == hs;
    }
  }

  lemma {:induction false} FirstSupportedAt(hs: seq<Hypothesis>, i: nat)
    requires i < |hs| && hs[i].supporting != [] && forall j :: 0 <= j < i ==> hs[j].supporting == []
    ensures A.FirstSupported(hs) == i
  {
    var n := |hs| - 1;
    if i < n {
      FirstSupportedAt(hs[..n], i);
    } else {
      NoneSupported(hs[..n]);
    }
  }

  lemma {:induction false} NoneSupported(hs: seq<Hypothesis>)
    requires forall j :: 0 <= j < |hs| ==> hs[j].supporting == []
    ensures A.FirstSupported(hs) == |hs|
  {
    if hs != [] {
      NoneSupported(hs[..|hs| - 1]);
    }
  }

  /** The run stops exactly on a positive latency reading of the order service against a zero
      baseline. */
  lemma StopsExactly(incident: Incident, evidence: seq<Evidence>)
    ensures A.Stops(incident, evidence) <==>
            incident.service == "order-service" &&
            exists e :: e in evidence && e.source == QueryMetrics && e.content.metric == "latency_p95" &&
                        e.content.baseline == 0.0 && e.content.Current() > 0.0
  {
    if A.Stops(incident, evidence) {
      var e :| e in evidence && A.DividesByZero(incident, e);
    }
    if e :| e in evidence && e.source == QueryMetrics && e.content.metric == "latency_p95" &&
            e.content.baseline == 0.0 && e.content.Current() > 0.0 && incident.service == "order-service" {
      assert A.DividesByZero(incident, e);
    }
  }

  lemma SaysPoolExhaustedWhat(e: Evidence)
    requires e.source == QueryLogs
    ensures SaysPoolExhausted(e) <==>
            exists i | 0 <= i < |e.content.logs| :: IsPoolExhaustionLog(Lower(e.content.logs[i]))
  {}

  /** When the evidence points at nothing, or only at a pool that some metric shows idle, the
      report is INCONCLUSIVE and its only cause is UNKNOWN at LOW confidence. */
  lemma NothingPointed(incident: Incident, evidence: seq<Evidence>, failures: seq<string>, calls: nat, built: A.Recent,
                       verified: A.Recent)
    requires forall code, c | Pointed(incident, evidence, built, code, c) ::
               code == ConnectionPoolExhausted && exists d :: d in evidence && ShowsIdlePool(d)
    ensures var r := A.ReportOf(incident, evidence, failures, calls, built, verified);
            && r.status == Inconclusive && |r.topCauses| == 1
            && r.topCauses[0].code == Unknown && r.topCauses[0].confidence == Low
  {
    NothingStands(incident, evidence, built);
    var hs := A.Hypotheses(incident, evidence, built);
    assert |hs| == 1 && hs[0].code == Unknown && hs[0].confidence == Low;
    Undoubted(hs, evidence, verified);
    LoneUnknown(A.Verified(hs, evidence, verified), evidence);
  }

  lemma NothingStands(incident: Incident, evidence: seq<Evidence>, built: A.Recent)
    requires forall code, c | Pointed(incident, evidence, built, code, c) ::
               code == ConnectionPoolExhausted && exists d :: d in evidence && ShowsIdlePool(d)
    ensures Standing(incident, evidence, built) == []
  {
    var s := Standing(incident, evidence, built);
    if s != [] {
      assert s[0] in s;
      FilterMembers(Merged(incident, evidence, built), NotPool());
      StandingPointed(incident, evidence, built, 0);
    }
  }

  lemma LoneUnknown(hs: seq<Hypothesis>, evidence: seq<Evidence>)
    requires |hs| == 1 && hs[0].code == Unknown && hs[0].confidence == Low && hs[0].supporting == []
    ensures var r := Validated(hs, evidence);
            |r| == 1 && r[0].code == Unknown && r[0].confidence == Low && Verdict(r, true) == Inconclusive
  {
    ValidationEstablishes(hs, evidence);
    var r := Validated(hs, evidence);
    assert r[0] in r;
    RestrictedNothing(hs, evidence);
    assert Codes(hs) == [Unknown];
  }

  lemma RestrictedNothing(hs: seq<Hypothesis>, evidence: seq<Evidence>)
    requires |hs| == 1 && hs[0].supporting == []
    ensures Validated(hs, evidence) != [] && Validated(hs, evidence)[0].supporting == []
  {
    var restricted := RestrictAll(hs, EvidenceIds(evidence));
    assert restricted[0].supporting == [];
    FilterNone(restricted, Supported());
    FilterAll(restricted, Unsupported());
  }
}
