/** The aggregation loop over its accumulators, proved equal to the step-by-step result. */
module Aggregate {
  import opened Basics
  import opened Ordering
  import opened Metrics
  import opened Protocol
  import opened Counters
  import opened AggregateSpec
  import T = Totals

  // ----- loops stop at the first error

  lemma {:induction false} LoopStops(es: seq<AgentEvidence>, x: Expect, k: nat)
    requires k <= |es| && Loop(es[..k], x).Err?
    ensures Loop(es, x) == Loop(es[..k], x)
  {
    if k == |es| {
      assert es[..k] == es;
    } else {
      assert es[..|es| - 1][..k] == es[..k];
      LoopStops(es[..|es| - 1], x, k);
    }
  }

  lemma {:induction false} ToolsStop(tools: map<string, ToolTotals>, e: AgentEvidence, order: seq<string>, k: nat)
    requires k <= |order| && (forall t :: t in order ==> t in e.perTool)
    requires AggregateSpec.MergeTools(tools, e, order[..k]).Err?
    ensures AggregateSpec.MergeTools(tools, e, order) == AggregateSpec.MergeTools(tools, e, order[..k])
  {
    if k == |order| {
      assert order[..k] == order;
    } else {
      assert order[..|order| - 1][..k] == order[..k];
      ToolsStop(tools, e, order[..|order| - 1], k);
    }
  }

  lemma {:induction false} SummariesStop(tools: map<string, ToolTotals>, order: seq<string>, k: nat)
    requires k <= |order| && (forall t :: t in order ==> t in tools)
    requires SummarizeTools(tools, order[..k]).Err?
    ensures SummarizeTools(tools, order) == SummarizeTools(tools, order[..k])
  {
    if k == |order| {
      assert order[..k] == order;
    } else {
      assert order[..|order| - 1][..k] == order[..k];
      SummariesStop(tools, order[..|order| - 1], k);
    }
  }

  // ----- the imperative code

  method DecodeValidated(agent: string, scope: string, m: MetricsEvidence)
    returns (r: Result<Histogram, AggregateError>)
    ensures r == Validated(agent, scope, m)
  {
    var h := Decoded(m.latency);
    if h.Err? {
      return h;
    }
    var latencyOutcomes := m.outcomes[Success] + m.outcomes[Hang];
    if latencyOutcomes >= U64_LIMIT {
      return Err(CounterOverflow("latency_outcomes"));
    }
    latencyOutcomes := latencyOutcomes + m.outcomes[Deadlock];
    if latencyOutcomes >= U64_LIMIT {
      return Err(CounterOverflow("latency_outcomes"));
    }
    if |h.value.samples| != latencyOutcomes {
      return Err(LatencyOutcomeMismatch(agent, scope, |h.value.samples|, latencyOutcomes));
    }
    r := h;
  }

  method AddOutcomesInPlace(into: OutcomeCounts, from: OutcomeCounts) returns (r: Result<OutcomeCounts, AggregateError>)
    ensures r == AddOutcomes(into, from)
  {
    var sum := AddInPlace(into, from, OUTCOME_ORDER, OutcomeLimit);
    match sum
    case Ok(s) => r := Ok(s);
    case Err(o) => r := Err(OutcomeOverflow(o));
  }

  method AddScenarioInPlace(into: multiset<ScenarioCounter>, from: multiset<ScenarioCounter>)
    returns (r: Result<multiset<ScenarioCounter>, AggregateError>)
    ensures r == AddScenario(into, from)
  {
    var sum := AddInPlace(into, from, SCENARIO_ORDER, CounterLimit);
    match sum
    case Ok(s) => r := Ok(s);
    case Err(c) => r := Err(ScenarioOverflow(c));
  }

  method MergeOneTool(known: Option<ToolTotals>, agent: string, tool: string, metrics: MetricsEvidence)
    returns (r: Result<ToolTotals, AggregateError>)
    ensures r == MergeTool(known, agent, tool, metrics)
  {
    hide Validated, MergeHistogram, AddOutcomes;
    var histogram := DecodeValidated(agent, tool, metrics);
    if histogram.Err? {
      return Err(histogram.error);
    }
    var sum := MergeHistogram(if known.Some? then Some(known.value.histogram) else None, histogram.value, agent, tool);
    if sum.Err? {
      return Err(sum.error);
    }
    var outcomes := AddOutcomesInPlace(if known.Some? then known.value.outcomes else multiset{}, metrics.outcomes);
    if outcomes.Err? {
      return Err(outcomes.error);
    }
    r := Ok(ToolTotals(sum.value, outcomes.value));
  }

  method MergeAgentTools(tools: map<string, ToolTotals>, e: AgentEvidence)
    returns (r: Result<map<string, ToolTotals>, AggregateError>)
    ensures r == AggregateSpec.MergeTools(tools, e, Sorted(e.perTool.Keys))
  {
    hide MergeTool, ToolOf, Sorted, Ascending;
    var order := Sorted(e.perTool.Keys);
    var merged := tools;
    for i := 0 to |order|
      invariant AggregateSpec.MergeTools(tools, e, order[..i]) == Ok(merged)
    {
      var tool := order[i];
      assert order[..i + 1][..i] == order[..i];
      assert tool in order;
      var one := MergeOneTool(ToolOf(merged, tool), e.agentName, tool, e.perTool[tool]);
      if one.Err? {
        ToolsStop(tools, e, order, i + 1);
        return Err(one.error);
      }
      merged := merged[tool := one.value];
    }
    assert order[..|order|] == order;
    r := Ok(merged);
  }

  method CheckIdentity(acc: Acc, e: AgentEvidence, x: Expect) returns (problem: Option<AggregateError>)
    ensures problem == IdentityProblem(acc, e, x)
  {
    if e.agentName in acc.names {
      return Some(DuplicateAgent(e.agentName));
    }
    if e.agentName != e.shard.agentName {
      return Some(ShardIdentityMismatch(e.agentName, e.shard.agentName));
    }
    if e.shard.agentCount != x.count || e.shard.index >= x.count || e.shard.concurrency == 0 || e.shard.index in acc.indices {
      return Some(InvalidShard(e.agentName));
    }
    if e.targetProtocolVersion != x.protocolVersion {
      return Some(TargetProtocolMismatch(x.protocolVersion, e.targetProtocolVersion, e.agentName));
    }
    if e.toolInventoryHash != x.inventoryHash {
      return Some(ToolInventoryMismatch(e.agentName));
    }
    if acc.concurrency + e.shard.concurrency >= U32_LIMIT {
      return Some(CounterOverflow("global_concurrency"));
    }
    return None;
  }

  method MergeAgent(acc: Acc, e: AgentEvidence, x: Expect) returns (r: Result<Acc, AggregateError>)
    ensures r == Step(acc, e, x)
  {
    hide Validated, MergeHistogram, AddOutcomes, AddScenario, IdentityProblem, AggregateSpec.MergeTools;
    var problem := CheckIdentity(acc, e, x);
    if problem.Some? {
      return Err(problem.value);
    }
    var next := acc.(names := acc.names + {e.agentName}, indices := acc.indices + {e.shard.index});
    next := next.(concurrency := next.concurrency + e.shard.concurrency,
                  earliest := T.Min(next.earliest, e.startDelayMs),
                  latest := T.Max(next.latest, e.startDelayMs),
                  elapsed := T.Max(next.elapsed, e.measurementElapsedMs));
    var histogram := DecodeValidated(e.agentName, "global", e.metrics);
    if histogram.Err? {
      return Err(histogram.error);
    }
    var merged := MergeHistogram(next.histogram, histogram.value, e.agentName, "global");
    if merged.Err? {
      return Err(merged.error);
    }
    next := next.(histogram := Some(merged.value));
    var outcomes := AddOutcomesInPlace(next.outcomes, e.metrics.outcomes);
    if outcomes.Err? {
      return Err(outcomes.error);
    }
    next := next.(outcomes := outcomes.value);
    var scenario := AddScenarioInPlace(next.scenario, e.scenarioOutcome.counts);
    if scenario.Err? {
      return Err(scenario.error);
    }
    next := next.(scenario := scenario.value, hung := next.hung + e.scenarioOutcome.hungForMs,
                  notes := next.notes + T.Prefixed(e.agentName, e.scenarioOutcome.notes));
    var tools := MergeAgentTools(next.tools, e);
    if tools.Err? {
      return Err(tools.error);
    }
    r := Ok(next.(tools := tools.value));
  }

  method SummarizeAll(tools: map<string, ToolTotals>) returns (r: Result<map<string, ScenarioMetrics>, AggregateError>)
    ensures r == SummarizeTools(tools, Sorted(tools.Keys))
  {
    hide Summarize, Sorted, Ascending;
    var order := Sorted(tools.Keys);
    var out: map<string, ScenarioMetrics> := map[];
    for i := 0 to |order|
      invariant SummarizeTools(tools, order[..i]) == Ok(out)
    {
      assert order[..i + 1][..i] == order[..i];
      assert order[i] in order;
      var s := Summarize(tools[order[i]].histogram.samples, tools[order[i]].outcomes);
      if s.Err? {
        SummariesStop(tools, order, i + 1);
        return Err(s.error);
      }
      out := out[order[i] := s.value];
    }
    assert order[..|order|] == order;
    r := Ok(out);
  }

  method Finish(acc: Acc, x: Expect) returns (r: Result<Aggregated, AggregateError>)
    ensures r == Conclude(acc, x)
  {
    hide Summarize, SummarizeTools;
    if acc.histogram.None? {
      return Err(EmptyCohort);
    }
    var total := OutcomeTotal(acc.outcomes);
    if total.Err? {
      return Err(total.error);
    }
    if total.value > 0 && acc.elapsed == 0 {
      return Err(MissingMeasurementInterval);
    }
    var metrics := Summarize(acc.histogram.value.samples, acc.outcomes);
    if metrics.Err? {
      return Err(metrics.error);
    }
    var perTool := SummarizeAll(acc.tools);
    if perTool.Err? {
      return Err(perTool.error);
    }
    var skew := if acc.latest < acc.earliest then 0 else acc.latest - acc.earliest;
    r := Ok(Aggregated(Sorted(acc.names), acc.concurrency, metrics.value, perTool.value, acc.scenario,
      acc.notes, acc.hung, acc.elapsed, skew, x.protocolVersion, x.inventoryHash));
  }

  method AggregateEvidence(evidence: seq<AgentEvidence>) returns (r: Result<Aggregated, AggregateError>)
    ensures r == AggregateSpec.Aggregate(evidence)
  {
    hide Step, Conclude;
    if evidence == [] {
      return Err(EmptyCohort);
    }
    if |evidence| >= U32_LIMIT {
      return Err(CounterOverflow("agent_count"));
    }
    var x := Expect(|evidence|, evidence[0].targetProtocolVersion, evidence[0].toolInventoryHash);
    var acc := START;
    for i := 0 to |evidence|
      invariant Loop(evidence[..i], x) == Ok(acc)
    {
      assert evidence[..i + 1][..i] == evidence[..i];
      var next := MergeAgent(acc, evidence[i], x);
      if next.Err? {
        LoopStops(evidence, x, i + 1);
        return Err(next.error);
      }
      acc := next.value;
    }
    assert evidence[..|evidence|] == evidence;
    r := Finish(acc, x);
  }
}
