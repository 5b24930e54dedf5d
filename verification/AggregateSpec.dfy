/** Merging a cohort's evidence, step by step; the order of the checks decides which error is reported. */
module AggregateSpec {
  import opened Basics
  import opened Ordering
  import opened Metrics
  import opened Protocol
  import opened Counters
  import T = Totals

  datatype AggregateError =
    | EmptyCohort
    | DuplicateAgent(agent: string)
    | ShardIdentityMismatch(agent: string, shardAgent: string)
    | InvalidShard(agent: string)
    | TargetProtocolMismatch(expected: string, actual: string, agent: string)
    | ToolInventoryMismatch(agent: string)
    | UnsupportedHistogramEncoding(encoding: string)
    | HistogramDecode
    | HistogramCountMismatch(declared: nat, decoded: nat)
    | HistogramLayoutMismatch(agent: string, scope: string)
    | LatencyOutcomeMismatch(agent: string, scope: string, histogram: nat, outcomes: nat)
    | OutcomeOverflow(counter: CallOutcome)
    | ScenarioOverflow(scenarioCounter: ScenarioCounter)
    | CounterOverflow(what: string)
    | MissingMeasurementInterval

  /** The order in which `add_outcomes` and `outcome_total` visit the counters. */
  const OUTCOME_ORDER: seq<CallOutcome> :=
    [Success, Hang, Deadlock, Timeout, ServerError, CallOutcome.ProtocolError, Crash, Malformed,
     Disconnected, CallOutcome.Cancelled, ExpectedRejection]

  const SCENARIO_ORDER: seq<ScenarioCounter> :=
    [HangCount, DeadlockCount, TotalCalls, SuccessfulCalls, ErrorCount, DivergenceCount,
     IncompleteWorkerCount, TeardownFailureCount]

  function OutcomeLimit(o: CallOutcome): nat {
    U64_LIMIT
  }

  datatype ToolTotals = ToolTotals(histogram: Histogram, outcomes: OutcomeCounts)

  /** The accumulators of the loop over the cohort. */
  datatype Acc = Acc(
    names: set<string>, indices: set<u32>, concurrency: nat, earliest: nat, latest: nat, elapsed: nat,
    histogram: Option<Histogram>, outcomes: OutcomeCounts,
    scenario: multiset<ScenarioCounter>, notes: seq<string>, hung: seq<nat>,
    tools: map<string, ToolTotals>)

  const START := Acc({}, {}, 0, U64_LIMIT - 1, 0, 0, None, multiset{}, multiset{}, [], [], map[])

  /** What the first agent fixes for everyone. */
  datatype Expect = Expect(count: u32, protocolVersion: string, inventoryHash: string)

  // ----- one metrics scope

  function Decoded(h: HistogramEvidence): Result<Histogram, AggregateError> {
    if h.encoding != HDR_ENCODING then Err(UnsupportedHistogramEncoding(h.encoding))
    else if h.payload.None? then Err(HistogramDecode)
    else if |h.payload.value.samples| != h.count then Err(HistogramCountMismatch(h.count, |h.payload.value.samples|))
    else Ok(h.payload.value)
  }

  function Validated(agent: string, scope: string, m: MetricsEvidence): Result<Histogram, AggregateError> {
    var h := Decoded(m.latency);
    if h.Err? then h
    else if m.outcomes[Success] + m.outcomes[Hang] >= U64_LIMIT || LatencyBearing(m.outcomes) >= U64_LIMIT then
      Err(CounterOverflow("latency_outcomes"))
    else if |h.value.samples| != LatencyBearing(m.outcomes) then
      Err(LatencyOutcomeMismatch(agent, scope, |h.value.samples|, LatencyBearing(m.outcomes)))
    else h
  }

  predicate SameLayout(a: Histogram, b: Histogram) {
    a.low == b.low && a.high == b.high && a.sigfig == b.sigfig
  }

  function MergeHistogram(into: Option<Histogram>, h: Histogram, agent: string,
        scope: string): Result<Histogram, AggregateError> {
    if into.None? then Ok(h)
    else if !SameLayout(into.value, h) then Err(HistogramLayoutMismatch(agent, scope))
    else Ok(into.value.(samples := into.value.samples + h.samples))
  }

  function AddOutcomes(into: OutcomeCounts, from: OutcomeCounts): Result<OutcomeCounts, AggregateError> {
    match AddFields(into, from, OUTCOME_ORDER, OutcomeLimit)
    case Ok(sum) => Ok(sum)
    case Err(o) => Err(OutcomeOverflow(o))
  }

  function AddScenario(into: multiset<ScenarioCounter>,
        from: multiset<ScenarioCounter>): Result<multiset<ScenarioCounter>, AggregateError> {
    match AddFields(into, from, SCENARIO_ORDER, CounterLimit)
    case Ok(sum) => Ok(sum)
    case Err(c) => Err(ScenarioOverflow(c))
  }

  function OutcomeTotal(outcomes: OutcomeCounts): Result<nat, AggregateError> {
    match TotalFields(outcomes, OUTCOME_ORDER, 0, U64_LIMIT)
    case Ok(total) => Ok(total)
    case Err(o) => Err(OutcomeOverflow(o))
  }

  // ----- one agent

  function IdentityProblem(acc: Acc, e: AgentEvidence, x: Expect): Option<AggregateError> {
    if e.agentName in acc.names then Some(DuplicateAgent(e.agentName))
    else if e.agentName != e.shard.agentName then Some(ShardIdentityMismatch(e.agentName, e.shard.agentName))
    else if e.shard.agentCount != x.count || e.shard.index >= x.count || e.shard.concurrency == 0 || e.shard.index in acc.indices then
      Some(InvalidShard(e.agentName))
    else if e.targetProtocolVersion != x.protocolVersion then
      Some(TargetProtocolMismatch(x.protocolVersion, e.targetProtocolVersion, e.agentName))
    else if e.toolInventoryHash != x.inventoryHash then Some(ToolInventoryMismatch(e.agentName))
    else if acc.concurrency + e.shard.concurrency >= U32_LIMIT then Some(CounterOverflow("global_concurrency"))
    else None
  }

  function ToolOf(tools: map<string, ToolTotals>, tool: string): Option<ToolTotals> {
    if tool in tools then Some(tools[tool]) else None
  }

  function MergeTool(into: Option<ToolTotals>, agent: string, tool: string,
        m: MetricsEvidence): Result<ToolTotals, AggregateError> {
    match Validated(agent, tool, m)
    case Err(x) => Err(x)
    case Ok(h) =>
      match MergeHistogram(if into.Some? then Some(into.value.histogram) else None, h, agent, tool)
      case Err(x) => Err(x)
      case Ok(merged) =>
        match AddOutcomes(if into.Some? then into.value.outcomes else multiset{}, m.outcomes)
        case Err(x) => Err(x)
        case Ok(sum) => Ok(ToolTotals(merged, sum))
  }

  function MergeTools(tools: map<string, ToolTotals>, e: AgentEvidence,
        order: seq<string>): Result<map<string, ToolTotals>, AggregateError>
    requires forall t :: t in order ==> t in e.perTool
  {
    if order == [] then Ok(tools)
    else
      var last := order[|order| - 1];
      match MergeTools(tools, e, order[..|order| - 1])
      case Err(x) => Err(x)
      case Ok(before) =>
        match MergeTool(ToolOf(before, last), e.agentName, last, e.perTool[last])
        case Err(x) => Err(x)
        case Ok(merged) => Ok(before[last := merged])
  }

  function Step(acc: Acc, e: AgentEvidence, x: Expect): Result<Acc, AggregateError> {
    if IdentityProblem(acc, e, x).Some? then Err(IdentityProblem(acc, e, x).value)
    else
      match Validated(e.agentName, "global", e.metrics)
      case Err(p) => Err(p)
      case Ok(h) =>
        match MergeHistogram(acc.histogram, h, e.agentName, "global")
        case Err(p) => Err(p)
        case Ok(merged) =>
          match AddOutcomes(acc.outcomes, e.metrics.outcomes)
          case Err(p) => Err(p)
          case Ok(outcomes) =>
            match AddScenario(acc.scenario, e.scenarioOutcome.counts)
            case Err(p) => Err(p)
            case Ok(scenario) =>
              match MergeTools(acc.tools, e, Sorted(e.perTool.Keys))
              case Err(p) => Err(p)
              case Ok(tools) =>
                Ok(Acc(acc.names + {e.agentName}, acc.indices + {e.shard.index}, acc.concurrency + e.shard.concurrency,
                  T.Min(acc.earliest, e.startDelayMs), T.Max(acc.latest, e.startDelayMs),
                  T.Max(acc.elapsed, e.measurementElapsedMs), Some(merged), outcomes, scenario,
                  acc.notes + T.Prefixed(e.agentName, e.scenarioOutcome.notes),
                  acc.hung + e.scenarioOutcome.hungForMs, tools))
  }

  function Loop(es: seq<AgentEvidence>, x: Expect): Result<Acc, AggregateError> {
    if es == [] then Ok(START)
    else
      match Loop(es[..|es| - 1], x)
      case Err(p) => Err(p)
      case Ok(acc) => Step(acc, es[|es| - 1], x)
  }

  // ----- the report

  /** Percentiles are read from the merged samples, so the samples stand for them here. */
  datatype ScenarioMetrics = ScenarioMetrics(
    samples: multiset<nat>, totalRequests: nat, successfulRequests: nat, outcomes: OutcomeCounts)

  datatype Aggregated = Aggregated(
    agentNames: seq<string>, globalConcurrency: nat, metrics: ScenarioMetrics,
    perTool: map<string, ScenarioMetrics>,
    scenario: multiset<ScenarioCounter>, notes: seq<string>, hung: seq<nat>,
    measurementElapsedMs: nat, startSkewMs: nat, protocolVersion: string, inventoryHash: string)

  function Summarize(samples: multiset<nat>, outcomes: OutcomeCounts): Result<ScenarioMetrics, AggregateError> {
    match OutcomeTotal(outcomes)
    case Err(p) => Err(p)
    case Ok(total) =>
      var successful := outcomes[Success] + outcomes[ExpectedRejection];
      if successful >= U64_LIMIT then Err(CounterOverflow("successful_requests"))
      else Ok(ScenarioMetrics(samples, total, successful, outcomes))
  }

  function SummarizeTools(tools: map<string, ToolTotals>,
        order: seq<string>): Result<map<string, ScenarioMetrics>, AggregateError>
    requires forall t :: t in order ==> t in tools
  {
    if order == [] then Ok(map[])
    else
      var last := order[|order| - 1];
      match SummarizeTools(tools, order[..|order| - 1])
      case Err(p) => Err(p)
      case Ok(before) =>
        match Summarize(tools[last].histogram.samples, tools[last].outcomes)
        case Err(p) => Err(p)
        case Ok(s) => Ok(before[last := s])
  }

  function Conclude(acc: Acc, x: Expect): Result<Aggregated, AggregateError> {
    if acc.histogram.None? then Err(EmptyCohort)
    else
      match OutcomeTotal(acc.outcomes)
      case Err(p) => Err(p)
      case Ok(total) =>
        if total > 0 && acc.elapsed == 0 then Err(MissingMeasurementInterval)
        else
          match Summarize(acc.histogram.value.samples, acc.outcomes)
          case Err(p) => Err(p)
          case Ok(metrics) =>
            match SummarizeTools(acc.tools, Sorted(acc.tools.Keys))
            case Err(p) => Err(p)
            case Ok(perTool) =>
              Ok(Aggregated(Sorted(acc.names), acc.concurrency, metrics, perTool, acc.scenario, acc.notes, acc.hung,
                acc.elapsed, if acc.latest < acc.earliest then 0 else acc.latest - acc.earliest,
                x.protocolVersion, x.inventoryHash))
  }

  function Aggregate(es: seq<AgentEvidence>): Result<Aggregated, AggregateError> {
    if es == [] then Err(EmptyCohort)
    else if |es| >= U32_LIMIT then Err(CounterOverflow("agent_count"))
    else
      var x := Expect(|es|, es[0].targetProtocolVersion, es[0].toolInventoryHash);
      match Loop(es, x)
      case Err(p) => Err(p)
      case Ok(acc) => Conclude(acc, x)
  }
}
