/** Exactly which cohorts aggregate, to what, and independently of the order of the evidence. */
module AggregateMeaning {
  import opened Basics
  import opened Ordering
  import opened Metrics
  import opened Protocol
  import opened Counters
  import opened AggregateSpec
  import T = Totals

  // ----- what must hold of one agent, and of any two

  /** The payload decodes, declares its own size, and has one sample per latency-bearing outcome. */
  predicate ScopeOk(m: MetricsEvidence) {
    && m.latency.encoding == HDR_ENCODING
    && m.latency.payload.Some?
    && |m.latency.payload.value.samples| == m.latency.count
    && LatencyBearing(m.outcomes) < U64_LIMIT
    && |m.latency.payload.value.samples| == LatencyBearing(m.outcomes)
  }

  predicate HeaderOk(e: AgentEvidence, x: Expect) {
    && e.agentName == e.shard.agentName
    && e.shard.agentCount == x.count && e.shard.index < x.count && e.shard.concurrency > 0
    && e.targetProtocolVersion == x.protocolVersion && e.toolInventoryHash == x.inventoryHash
  }

  function HistOf(m: MetricsEvidence): Histogram {
    if m.latency.payload.Some? then m.latency.payload.value else Histogram(0, 0, 0, multiset{})
  }

  function Names(p: seq<AgentEvidence>): set<string> {
    set e | e in p :: e.agentName
  }

  function Indices(p: seq<AgentEvidence>): set<u32> {
    set e | e in p :: e.shard.index
  }

  ghost predicate IdentitiesOk(p: seq<AgentEvidence>, x: Expect) {
    && (forall e :: e in p ==> HeaderOk(e, x))
    && |Names(p)| == |p| && |Indices(p)| == |p|
    && T.Fold(p).concurrency < U32_LIMIT
  }

  ghost predicate GlobalOk(p: seq<AgentEvidence>) {
    && (forall e :: e in p ==> ScopeOk(e.metrics))
    && (forall e, f :: e in p && f in p ==> SameLayout(HistOf(e.metrics), HistOf(f.metrics)))
    && Fits(T.Fold(p).recording.overall.outcomes)
  }

  ghost predicate ScenarioFits(counts: multiset<ScenarioCounter>) {
    forall c :: counts[c] < CounterLimit(c)
  }

  ghost predicate ToolsOk(p: seq<AgentEvidence>, t: string) {
    && (forall e :: e in p && t in e.perTool ==> ScopeOk(e.perTool[t]))
    && (forall e, f :: e in p && f in p && t in e.perTool && t in f.perTool ==>
          SameLayout(HistOf(e.perTool[t]), HistOf(f.perTool[t])))
    && Fits(SeriesOf(T.Fold(p).recording.perTool, t).outcomes)
  }

  ghost predicate Good(p: seq<AgentEvidence>, x: Expect) {
    && IdentitiesOk(p, x)
    && GlobalOk(p)
    && ScenarioFits(T.Fold(p).scenario)
    && forall t :: ToolsOk(p, t)
  }

  // ----- single operations

  lemma {:induction false} ValidatedIff(agent: string, scope: string, m: MetricsEvidence)
    ensures Validated(agent, scope, m).Ok? <==> ScopeOk(m)
    ensures ScopeOk(m) ==> Validated(agent, scope, m) == Ok(HistOf(m))
  {
  }

  lemma {:induction false} OutcomeOrderComplete(o: CallOutcome)
    ensures o in OUTCOME_ORDER && Distinct(OUTCOME_ORDER)
  {
    match o
    case Success => assert OUTCOME_ORDER[0] == o;
    case Hang => assert OUTCOME_ORDER[1] == o;
    case Deadlock => assert OUTCOME_ORDER[2] == o;
    case Timeout => assert OUTCOME_ORDER[3] == o;
    case ServerError => assert OUTCOME_ORDER[4] == o;
    case ProtocolError => assert OUTCOME_ORDER[5] == o;
    case Crash => assert OUTCOME_ORDER[6] == o;
    case Malformed => assert OUTCOME_ORDER[7] == o;
    case Disconnected => assert OUTCOME_ORDER[8] == o;
    case Cancelled => assert OUTCOME_ORDER[9] == o;
    case ExpectedRejection => assert OUTCOME_ORDER[10] == o;
  }

  lemma {:induction false} ScenarioOrderComplete(c: ScenarioCounter)
    ensures c in SCENARIO_ORDER && Distinct(SCENARIO_ORDER)
  {
    match c
    case HangCount => assert SCENARIO_ORDER[0] == c;
    case DeadlockCount => assert SCENARIO_ORDER[1] == c;
    case TotalCalls => assert SCENARIO_ORDER[2] == c;
    case SuccessfulCalls => assert SCENARIO_ORDER[3] == c;
    case ErrorCount => assert SCENARIO_ORDER[4] == c;
    case DivergenceCount => assert SCENARIO_ORDER[5] == c;
    case IncompleteWorkerCount => assert SCENARIO_ORDER[6] == c;
    case TeardownFailureCount => assert SCENARIO_ORDER[7] == c;
  }

  /** Checked addition visits every counter: it succeeds exactly when the sum fits. */
  lemma {:induction false} AddOutcomesIff(into: OutcomeCounts, from: OutcomeCounts)
    ensures AddOutcomes(into, from).Ok? <==> Fits(into + from)
    ensures AddOutcomes(into, from).Ok? ==> AddOutcomes(into, from).value == into + from
  {
    hide AddFields;
    OutcomeOrderComplete(Success);
    AddFieldsMeaning(into, from, OUTCOME_ORDER, OutcomeLimit);
    forall o: CallOutcome ensures o in OUTCOME_ORDER {
      OutcomeOrderComplete(o);
    }
    if AddOutcomes(into, from).Ok? {
      assert AddOutcomes(into, from).value == into + from;
    }
    forall o: CallOutcome ensures (into + from)[o] == into[o] + from[o] {
    }
  }

  lemma {:induction false} AddScenarioIff(into: multiset<ScenarioCounter>, from: multiset<ScenarioCounter>)
    ensures AddScenario(into, from).Ok? <==> ScenarioFits(into + from)
    ensures AddScenario(into, from).Ok? ==> AddScenario(into, from).value == into + from
  {
    hide AddFields;
    ScenarioOrderComplete(HangCount);
    AddFieldsMeaning(into, from, SCENARIO_ORDER, CounterLimit);
    forall c: ScenarioCounter ensures c in SCENARIO_ORDER {
      ScenarioOrderComplete(c);
    }
    if AddScenario(into, from).Ok? {
      assert AddScenario(into, from).value == into + from;
    }
    forall c: ScenarioCounter ensures (into + from)[c] == into[c] + from[c] {
    }
  }

  lemma {:induction false} OutcomeTotalIff(m: OutcomeCounts)
    ensures OutcomeTotal(m).Ok? <==> |m| < U64_LIMIT
    ensures OutcomeTotal(m).Ok? ==> OutcomeTotal(m).value == |m|
  {
    hide TotalFields, SumFields;
    OutcomeOrderComplete(Success);
    forall o: CallOutcome ensures o in OUTCOME_ORDER {
      OutcomeOrderComplete(o);
    }
    TotalFieldsMeaning(m, OUTCOME_ORDER, 0, U64_LIMIT);
    SumIsSize(m, OUTCOME_ORDER);
  }

  predicate ToolMergeable(into: Option<ToolTotals>, m: MetricsEvidence) {
    ScopeOk(m) && (into.Some? ==> SameLayout(into.value.histogram, HistOf(m)))
  }

  function ToolOutcomes(into: Option<ToolTotals>): OutcomeCounts {
    if into.Some? then into.value.outcomes else multiset{}
  }

  function ToolSamples(into: Option<ToolTotals>): multiset<nat> {
    if into.Some? then into.value.histogram.samples else multiset{}
  }

  lemma {:induction false} MergeToolIff(into: Option<ToolTotals>, agent: string, tool: string, m: MetricsEvidence)
    ensures MergeTool(into, agent, tool, m).Ok? <==> ToolMergeable(into, m) && Fits(ToolOutcomes(into) + m.outcomes)
    ensures MergeTool(into, agent, tool, m).Ok? ==>
      var r := MergeTool(into, agent, tool, m).value;
      && r.outcomes == ToolOutcomes(into) + m.outcomes
      && r.histogram.samples == ToolSamples(into) + HistOf(m).samples
      && SameLayout(r.histogram, HistOf(m))
      && (into.Some? ==> SameLayout(r.histogram, into.value.histogram))
  {
    hide Validated, ScopeOk, AddOutcomes, HistOf, Fits;
    ValidatedIff(agent, tool, m);
    AddOutcomesIff(ToolOutcomes(into), m.outcomes);
  }

  lemma {:induction false} MergeToolsIff(tools: map<string, ToolTotals>, e: AgentEvidence, order: seq<string>)
    requires Ascending(order) && forall t :: t in order ==> t in e.perTool
    ensures AggregateSpec.MergeTools(tools, e, order).Ok? <==>
      forall t :: t in order ==> MergeTool(ToolOf(tools, t), e.agentName, t, e.perTool[t]).Ok?
    ensures AggregateSpec.MergeTools(tools, e, order).Ok? ==>
      var r := AggregateSpec.MergeTools(tools, e, order).value;
      forall t :: ToolOf(r, t) ==
        if t in order then Some(MergeTool(ToolOf(tools, t), e.agentName, t, e.perTool[t]).value) else ToolOf(tools, t)
  {
    hide MergeTool, Ascending;
    if order != [] {
      var shorter, last := order[..|order| - 1], order[|order| - 1];
      assert order == shorter + [last];
      AscendingShorter(order);
      MergeToolsIff(tools, e, shorter);
      if AggregateSpec.MergeTools(tools, e, shorter).Ok? {
        var before := AggregateSpec.MergeTools(tools, e, shorter).value;
        assert ToolOf(before, last) == ToolOf(tools, last);
      }
    }
  }

  lemma {:induction false} AscendingShorter(order: seq<string>)
    requires Ascending(order) && order != []
    ensures Ascending(order[..|order| - 1]) && order[|order| - 1] !in order[..|order| - 1]
  {
    var n := |order| - 1;
    if order[n] in order[..n] {
      var k :| 0 <= k < n && order[k] == order[n];
      AscendingDistinct(order, k, n);
    }
  }

  // ----- one more agent

  lemma {:induction false} FoldSnoc(p: seq<AgentEvidence>, e: AgentEvidence)
    ensures T.Fold(p + [e]) == T.Fold(p).Plus(T.Of(e))
  {
    assert (p + [e])[..|p|] == p;
  }

  lemma {:induction false} NamesSnoc(p: seq<AgentEvidence>, e: AgentEvidence)
    ensures Names(p + [e]) == Names(p) + {e.agentName} && Indices(p + [e]) == Indices(p) + {e.shard.index}
  {
    assert forall f :: f in p + [e] <==> f in p || f == e;
    assert e in p + [e];
    forall n | n in Names(p) ensures n in Names(p + [e]) {
      var f :| f in p && f.agentName == n;
      assert f in p + [e];
    }
    forall i | i in Indices(p) ensures i in Indices(p + [e]) {
      var f :| f in p && f.shard.index == i;
      assert f in p + [e];
    }
  }

  lemma {:induction false} SetsAreSmall(p: seq<AgentEvidence>)
    ensures |Names(p)| <= |p| && |Indices(p)| <= |p|
  {
    if p != [] {
      var n := |p| - 1;
      assert p == p[..n] + [p[n]];
      SetsAreSmall(p[..n]);
      NamesSnoc(p[..n], p[n]);
    } else {
      assert Names(p) == {} && Indices(p) == {};
    }
  }

  lemma {:induction false} IdentitiesSnoc(p: seq<AgentEvidence>, e: AgentEvidence, x: Expect)
    ensures IdentitiesOk(p + [e], x) <==>
      && IdentitiesOk(p, x) && HeaderOk(e, x)
      && e.agentName !in Names(p) && e.shard.index !in Indices(p)
      && T.Fold(p).concurrency + e.shard.concurrency < U32_LIMIT
  {
    hide HeaderOk, Names, Indices, T.Fold;
    FoldSnoc(p, e);
    NamesSnoc(p, e);
    SetsAreSmall(p);
    assert forall f :: f in p + [e] <==> f in p || f == e;
  }

  lemma {:induction false} FitsLess(a: OutcomeCounts, b: OutcomeCounts)
    requires Fits(a + b)
    ensures Fits(a)
  {
    forall o ensures a[o] < U64_LIMIT {
      assert (a + b)[o] == a[o] + b[o];
    }
  }

  ghost predicate GlobalJoins(p: seq<AgentEvidence>, e: AgentEvidence) {
    && ScopeOk(e.metrics)
    && (forall f :: f in p ==> SameLayout(HistOf(f.metrics), HistOf(e.metrics)))
    && Fits(T.Fold(p).recording.overall.outcomes + e.metrics.outcomes)
  }

  lemma {:induction false} GlobalSnoc(p: seq<AgentEvidence>, e: AgentEvidence)
    ensures GlobalOk(p + [e]) <==> GlobalOk(p) && GlobalJoins(p, e)
  {
    hide ScopeOk, HistOf, T.Fold, Fits;
    FoldSnoc(p, e);
    assert forall f :: f in p + [e] <==> f in p || f == e;
    if Fits(T.Fold(p).recording.overall.outcomes + e.metrics.outcomes) {
      FitsLess(T.Fold(p).recording.overall.outcomes, e.metrics.outcomes);
    }
  }

  lemma {:induction false} ScenarioSnoc(p: seq<AgentEvidence>, e: AgentEvidence)
    ensures ScenarioFits(T.Fold(p + [e]).scenario) ==> ScenarioFits(T.Fold(p).scenario)
    ensures T.Fold(p + [e]).scenario == T.Fold(p).scenario + e.scenarioOutcome.counts
  {
    hide T.Fold;
    FoldSnoc(p, e);
    var a, b := T.Fold(p).scenario, e.scenarioOutcome.counts;
    forall c ensures (a + b)[c] == a[c] + b[c] {
    }
  }

  function OutcomesOf(p: seq<AgentEvidence>, t: string): OutcomeCounts {
    SeriesOf(T.Fold(p).recording.perTool, t).outcomes
  }

  lemma {:induction false} ToolSeriesOf(e: AgentEvidence, t: string)
    ensures SeriesOf(T.RecordingOf(e).perTool, t)
         == if t in e.perTool then Series(e.perTool[t].outcomes, HistOf(e.perTool[t]).samples) else NO_SERIES
  {
  }

  lemma {:induction false} ToolSeriesSnoc(p: seq<AgentEvidence>, e: AgentEvidence, t: string)
    ensures SeriesOf(T.Fold(p + [e]).recording.perTool, t)
         == SeriesOf(T.Fold(p).recording.perTool, t).Plus(
              if t in e.perTool then Series(e.perTool[t].outcomes, HistOf(e.perTool[t]).samples) else NO_SERIES)
  {
    hide T.Fold, T.RecordingOf, SeriesOf, Metrics.MergeTools;
    FoldSnoc(p, e);
    MergedSeries(T.Fold(p).recording.perTool, T.RecordingOf(e).perTool, t);
    ToolSeriesOf(e, t);
  }

  ghost predicate ToolJoins(p: seq<AgentEvidence>, e: AgentEvidence, t: string)
    requires t in e.perTool
  {
    && ScopeOk(e.perTool[t])
    && (forall f :: f in p && t in f.perTool ==> SameLayout(HistOf(f.perTool[t]), HistOf(e.perTool[t])))
    && Fits(OutcomesOf(p, t) + e.perTool[t].outcomes)
  }

  lemma {:induction false} ToolsSnoc(p: seq<AgentEvidence>, e: AgentEvidence, t: string)
    ensures ToolsOk(p + [e], t) <==> ToolsOk(p, t) && (t in e.perTool ==> ToolJoins(p, e, t))
  {
    hide ScopeOk, HistOf, T.Fold, Fits, SeriesOf;
    ToolSeriesSnoc(p, e, t);
    assert forall f :: f in p + [e] <==> f in p || f == e;
    if t in e.perTool {
      if Fits(OutcomesOf(p, t) + e.perTool[t].outcomes) {
        FitsLess(OutcomesOf(p, t), e.perTool[t].outcomes);
      }
    } else {
      assert OutcomesOf(p + [e], t) == OutcomesOf(p, t);
    }
  }

  /** Joining the cohort: everything the next agent must satisfy given the ones before it. */
  ghost predicate Joins(p: seq<AgentEvidence>, e: AgentEvidence, x: Expect) {
    && HeaderOk(e, x) && e.agentName !in Names(p) && e.shard.index !in Indices(p)
    && T.Fold(p).concurrency + e.shard.concurrency < U32_LIMIT
    && GlobalJoins(p, e)
    && ScenarioFits(T.Fold(p).scenario + e.scenarioOutcome.counts)
    && forall t :: t in e.perTool ==> ToolJoins(p, e, t)
  }

  lemma {:induction false} GoodSnoc(p: seq<AgentEvidence>, e: AgentEvidence, x: Expect)
    ensures Good(p + [e], x) <==> Good(p, x) && Joins(p, e, x)
  {
    hide IdentitiesOk, GlobalOk, GlobalJoins, ToolsOk, ToolJoins, ScenarioFits, T.Fold, HeaderOk, Names, Indices;
    IdentitiesSnoc(p, e, x);
    GlobalSnoc(p, e);
    ScenarioSnoc(p, e);
    forall t ensures ToolsOk(p + [e], t) <==> ToolsOk(p, t) && (t in e.perTool ==> ToolJoins(p, e, t)) {
      ToolsSnoc(p, e, t);
    }
  }

  // ----- the accumulators hold the order-free total of what was merged so far

  ghost predicate HeaderReached(acc: Acc, p: seq<AgentEvidence>) {
    && acc.names == Names(p) && acc.indices == Indices(p)
    && acc.concurrency == T.Fold(p).concurrency
    && acc.earliest == T.Fold(p).earliest && acc.latest == T.Fold(p).latest && acc.elapsed == T.Fold(p).elapsed
    && acc.scenario == T.Fold(p).scenario
    && multiset(acc.notes) == T.Fold(p).notes && multiset(acc.hung) == T.Fold(p).hung
  }

  ghost predicate GlobalReached(acc: Acc, p: seq<AgentEvidence>) {
    && Series(acc.outcomes, if acc.histogram.Some? then acc.histogram.value.samples else multiset{}) == T.Fold(p).recording.overall
    && (acc.histogram.None? <==> p == [])
    && (acc.histogram.Some? ==> forall e :: e in p ==> SameLayout(acc.histogram.value, HistOf(e.metrics)))
  }

  ghost predicate ToolReached(into: Option<ToolTotals>, p: seq<AgentEvidence>, t: string) {
    && Series(ToolOutcomes(into), ToolSamples(into)) == SeriesOf(T.Fold(p).recording.perTool, t)
    && (into.Some? <==> exists e :: e in p && t in e.perTool)
    && (into.Some? ==> forall e :: e in p && t in e.perTool ==> SameLayout(into.value.histogram, HistOf(e.perTool[t])))
  }

  ghost predicate Reached(acc: Acc, p: seq<AgentEvidence>) {
    && HeaderReached(acc, p)
    && GlobalReached(acc, p)
    && forall t :: ToolReached(ToolOf(acc.tools, t), p, t)
  }

  lemma {:induction false} HeaderReachedSnoc(acc: Acc, p: seq<AgentEvidence>, e: AgentEvidence, next: Acc)
    requires HeaderReached(acc, p)
    requires next.names == acc.names + {e.agentName} && next.indices == acc.indices + {e.shard.index}
    requires next.concurrency == acc.concurrency + e.shard.concurrency
    requires next.earliest == T.Min(acc.earliest, e.startDelayMs) && next.latest == T.Max(acc.latest, e.startDelayMs)
    requires next.elapsed == T.Max(acc.elapsed, e.measurementElapsedMs)
    requires next.scenario == acc.scenario + e.scenarioOutcome.counts
    requires next.notes == acc.notes + T.Prefixed(e.agentName, e.scenarioOutcome.notes)
    requires next.hung == acc.hung + e.scenarioOutcome.hungForMs
    ensures HeaderReached(next, p + [e])
  {
    hide T.Fold, Names, Indices, T.Prefixed, T.Min, T.Max;
    NamesSnoc(p, e);
    FoldSnoc(p, e);
  }

  lemma {:induction false} GlobalReachedSnoc(acc: Acc, p: seq<AgentEvidence>, e: AgentEvidence, next: Acc)
    requires GlobalReached(acc, p) && GlobalOk(p) && ScopeOk(e.metrics)
    requires MergeHistogram(acc.histogram, HistOf(e.metrics), e.agentName, "global").Ok?
    requires next.histogram == Some(MergeHistogram(acc.histogram, HistOf(e.metrics), e.agentName, "global").value)
    requires next.outcomes == acc.outcomes + e.metrics.outcomes
    ensures GlobalReached(next, p + [e])
  {
    hide T.Fold, GlobalOk;
    FoldSnoc(p, e);
    assert forall f :: f in p + [e] <==> f in p || f == e;
    if p == [] {
      assert T.Fold(p).recording.overall.samples == multiset{};
      assert next.histogram.value.samples == multiset{} + HistOf(e.metrics).samples;
    }
  }

  lemma {:induction false} MergeHistogramIff(acc: Acc, p: seq<AgentEvidence>, e: AgentEvidence)
    requires GlobalReached(acc, p) && GlobalOk(p)
    ensures MergeHistogram(acc.histogram, HistOf(e.metrics), e.agentName, "global").Ok? <==>
      forall f :: f in p ==> SameLayout(HistOf(f.metrics), HistOf(e.metrics))
  {
    hide T.Fold, HistOf, ScopeOk, Fits;
    if p != [] {
      assert p[0] in p;
    }
  }

  lemma {:induction false} ToolReachedSnoc(into: Option<ToolTotals>, p: seq<AgentEvidence>, e: AgentEvidence, t: string)
    requires ToolReached(into, p, t) && t in e.perTool
    requires MergeTool(into, e.agentName, t, e.perTool[t]).Ok?
    ensures ToolReached(Some(MergeTool(into, e.agentName, t, e.perTool[t]).value), p + [e], t)
  {
    hide T.Fold, MergeTool, HistOf, ScopeOk, Fits, SeriesOf;
    ToolSeriesSnoc(p, e, t);
    MergeToolIff(into, e.agentName, t, e.perTool[t]);
    assert forall f :: f in p + [e] <==> f in p || f == e;
    assert e in p + [e];
    var r := MergeTool(into, e.agentName, t, e.perTool[t]).value;
    forall f | f in p + [e] && t in f.perTool ensures SameLayout(r.histogram, HistOf(f.perTool[t])) {
      if f in p {
        assert into.Some?;
        assert SameLayout(into.value.histogram, HistOf(f.perTool[t]));
      }
    }
  }

  lemma {:induction false} ToolReachedSkips(into: Option<ToolTotals>, p: seq<AgentEvidence>, e: AgentEvidence,
        t: string)
    requires ToolReached(into, p, t) && t !in e.perTool
    ensures ToolReached(into, p + [e], t)
  {
    hide T.Fold, HistOf, SeriesOf;
    ToolSeriesSnoc(p, e, t);
    assert forall f :: f in p + [e] <==> f in p || f == e;
    assert NO_SERIES == Series(multiset{}, multiset{});
    if into.Some? {
      var f :| f in p && t in f.perTool;
      assert f in p + [e];
    }
  }

  lemma {:induction false} MergeToolJoins(into: Option<ToolTotals>, p: seq<AgentEvidence>, e: AgentEvidence, t: string)
    requires ToolReached(into, p, t) && ToolsOk(p, t) && t in e.perTool
    ensures MergeTool(into, e.agentName, t, e.perTool[t]).Ok? <==> ToolJoins(p, e, t)
  {
    hide T.Fold, MergeTool, HistOf, ScopeOk, Fits, SeriesOf;
    MergeToolIff(into, e.agentName, t, e.perTool[t]);
    if into.Some? {
      var f :| f in p && t in f.perTool;
      assert SameLayout(into.value.histogram, HistOf(f.perTool[t]));
    }
  }

  lemma {:induction false} IdentityIff(acc: Acc, p: seq<AgentEvidence>, e: AgentEvidence, x: Expect)
    requires HeaderReached(acc, p)
    ensures IdentityProblem(acc, e, x).None? <==>
      && HeaderOk(e, x) && e.agentName !in Names(p) && e.shard.index !in Indices(p)
      && T.Fold(p).concurrency + e.shard.concurrency < U32_LIMIT
  {
    hide T.Fold, Names, Indices;
  }

  lemma {:induction false} ToolsStepIff(acc: Acc, p: seq<AgentEvidence>, e: AgentEvidence)
    requires forall t :: ToolReached(ToolOf(acc.tools, t), p, t)
    requires forall t :: ToolsOk(p, t)
    ensures AggregateSpec.MergeTools(acc.tools, e, Sorted(e.perTool.Keys)).Ok? <==> forall t :: t in e.perTool ==> ToolJoins(p, e, t)
    ensures AggregateSpec.MergeTools(acc.tools, e, Sorted(e.perTool.Keys)).Ok? ==>
      forall t :: ToolReached(ToolOf(AggregateSpec.MergeTools(acc.tools, e, Sorted(e.perTool.Keys)).value, t), p + [e], t)
  {
    hide T.Fold, MergeTool, ToolReached, ToolsOk, ToolJoins, Ascending, Sorted, ToolOf, AggregateSpec.MergeTools;
    var order := Sorted(e.perTool.Keys);
    MergeToolsIff(acc.tools, e, order);
    forall t | t in e.perTool
      ensures MergeTool(ToolOf(acc.tools, t), e.agentName, t, e.perTool[t]).Ok? <==> ToolJoins(p, e, t)
    {
      MergeToolJoins(ToolOf(acc.tools, t), p, e, t);
    }
    var r := AggregateSpec.MergeTools(acc.tools, e, order);
    if r.Ok? {
      forall t ensures ToolReached(ToolOf(r.value, t), p + [e], t) {
        if t in e.perTool {
          ToolReachedSnoc(ToolOf(acc.tools, t), p, e, t);
        } else {
          ToolReachedSkips(ToolOf(acc.tools, t), p, e, t);
        }
      }
    }
  }

  /** Every check of the loop body, in terms of the order-free total. */
  lemma {:induction false} ChecksIff(acc: Acc, p: seq<AgentEvidence>, e: AgentEvidence, x: Expect)
    requires Reached(acc, p) && Good(p, x)
    ensures IdentityProblem(acc, e, x).None? <==>
      && HeaderOk(e, x) && e.agentName !in Names(p) && e.shard.index !in Indices(p)
      && T.Fold(p).concurrency + e.shard.concurrency < U32_LIMIT
    ensures GlobalJoins(p, e) <==>
      && Validated(e.agentName, "global", e.metrics).Ok?
      && MergeHistogram(acc.histogram, Validated(e.agentName, "global", e.metrics).value, e.agentName, "global").Ok?
      && AddOutcomes(acc.outcomes, e.metrics.outcomes).Ok?
    ensures AddScenario(acc.scenario, e.scenarioOutcome.counts).Ok? <==> ScenarioFits(T.Fold(p).scenario + e.scenarioOutcome.counts)
  {
    hide T.Fold, Names, Indices, HeaderOk, IdentityProblem, Validated, MergeHistogram, AddOutcomes, AddScenario,
      IdentitiesOk, GlobalOk, ToolsOk, ToolReached, ScenarioFits, ScopeOk, HistOf, Fits;
    IdentityIff(acc, p, e, x);
    ValidatedIff(e.agentName, "global", e.metrics);
    MergeHistogramIff(acc, p, e);
    AddOutcomesIff(acc.outcomes, e.metrics.outcomes);
    AddScenarioIff(acc.scenario, e.scenarioOutcome.counts);
  }

  lemma {:induction false} StepIff(acc: Acc, p: seq<AgentEvidence>, e: AgentEvidence, x: Expect)
    requires Reached(acc, p) && Good(p, x)
    ensures Step(acc, e, x).Ok? <==> Joins(p, e, x)
  {
    hide T.Fold, Names, Indices, HeaderOk, IdentityProblem, Validated, MergeHistogram, AddOutcomes, AddScenario,
      IdentitiesOk, GlobalOk, GlobalJoins, ToolsOk, ToolJoins, ScenarioFits, AggregateSpec.MergeTools, Sorted, Ascending,
      HeaderReached, GlobalReached, ToolReached;
    ChecksIff(acc, p, e, x);
    ToolsStepIff(acc, p, e);
  }

  lemma {:induction false} StepReaches(acc: Acc, p: seq<AgentEvidence>, e: AgentEvidence, x: Expect)
    requires Reached(acc, p) && Good(p, x) && Step(acc, e, x).Ok?
    ensures Reached(Step(acc, e, x).value, p + [e])
  {
    hide T.Fold, Names, Indices, HeaderOk, IdentityProblem, Validated, MergeHistogram, AddOutcomes, AddScenario,
      IdentitiesOk, GlobalOk, GlobalJoins, ToolsOk, ToolJoins, ScenarioFits, AggregateSpec.MergeTools, Sorted, Ascending,
      HeaderReached, GlobalReached, ToolReached, T.Prefixed, T.Min, T.Max, HistOf, ScopeOk, ToolOf;
    var next := Step(acc, e, x).value;
    ValidatedIff(e.agentName, "global", e.metrics);
    AddOutcomesIff(acc.outcomes, e.metrics.outcomes);
    AddScenarioIff(acc.scenario, e.scenarioOutcome.counts);
    HeaderReachedSnoc(acc, p, e, next);
    GlobalReachedSnoc(acc, p, e, next);
    ToolsStepIff(acc, p, e);
  }

  lemma {:induction false} StartReaches(x: Expect)
    ensures Reached(START, []) && Good([], x)
  {
    assert Names([]) == {} && Indices([]) == {};
    forall t ensures ToolReached(ToolOf(START.tools, t), [], t) && ToolsOk([], t) {
      assert SeriesOf(T.Fold([]).recording.perTool, t) == NO_SERIES;
    }
  }

  /** The loop gets through exactly the cohorts that satisfy every order-free condition. */
  lemma {:induction false} LoopIff(es: seq<AgentEvidence>, x: Expect)
    ensures Loop(es, x).Ok? <==> Good(es, x)
    ensures Loop(es, x).Ok? ==> Reached(Loop(es, x).value, es)
  {
    hide Good, Reached, Step, Joins;
    if es == [] {
      StartReaches(x);
    } else {
      var shorter, last := es[..|es| - 1], es[|es| - 1];
      assert es == shorter + [last];
      LoopIff(shorter, x);
      GoodSnoc(shorter, last, x);
      if Loop(shorter, x).Ok? {
        var acc := Loop(shorter, x).value;
        StepIff(acc, shorter, last, x);
        if Step(acc, last, x).Ok? {
          StepReaches(acc, shorter, last, x);
        }
      }
    }
  }

  // ----- the final summary

  function MetricsOf(s: Series): ScenarioMetrics {
    ScenarioMetrics(s.samples, |s.outcomes|, s.outcomes[Success] + s.outcomes[ExpectedRejection], s.outcomes)
  }

  lemma {:induction false} PartOfTotal(m: OutcomeCounts)
    ensures m[Success] + m[ExpectedRejection] <= |m| && LatencyBearing(m) <= |m|
  {
    var part := multiset{}[Success := m[Success]][ExpectedRejection := m[ExpectedRejection]];
    assert |part| == m[Success] + m[ExpectedRejection];
    assert m == part + (m - part);
    var lat := multiset{}[Success := m[Success]][Hang := m[Hang]][Deadlock := m[Deadlock]];
    assert |lat| == LatencyBearing(m);
    assert m == lat + (m - lat);
  }

  lemma {:induction false} SummarizeIff(samples: multiset<nat>, outcomes: OutcomeCounts)
    ensures Summarize(samples, outcomes).Ok? <==> |outcomes| < U64_LIMIT
    ensures Summarize(samples, outcomes).Ok? ==> Summarize(samples, outcomes).value == MetricsOf(Series(outcomes, samples))
  {
    OutcomeTotalIff(outcomes);
    PartOfTotal(outcomes);
  }

  function SeriesOfTool(tool: ToolTotals): Series {
    Series(tool.outcomes, tool.histogram.samples)
  }

  lemma {:induction false} SummarizeToolsIff(tools: map<string, ToolTotals>, order: seq<string>)
    requires forall t :: t in order ==> t in tools
    ensures SummarizeTools(tools, order).Ok? <==> forall t :: t in order ==> |tools[t].outcomes| < U64_LIMIT
    ensures SummarizeTools(tools, order).Ok? ==>
      SummarizeTools(tools, order).value == map t | t in order :: MetricsOf(SeriesOfTool(tools[t]))
  {
    hide Summarize, MetricsOf;
    if order != [] {
      var shorter, last := order[..|order| - 1], order[|order| - 1];
      assert order == shorter + [last];
      SummarizeToolsIff(tools, shorter);
      SummarizeIff(tools[last].histogram.samples, tools[last].outcomes);
    }
  }

  ghost predicate Concludable(t: T.Totals) {
    && |t.recording.overall.outcomes| < U64_LIMIT
    && (|t.recording.overall.outcomes| > 0 ==> t.elapsed > 0)
    && forall tool :: tool in t.recording.perTool ==> |t.recording.perTool[tool].outcomes| < U64_LIMIT
  }

  /** The report without the order of its free-form lists. */
  datatype Outline = Outline(
    agentNames: seq<string>, globalConcurrency: nat, metrics: ScenarioMetrics, perTool: map<string, ScenarioMetrics>,
    scenario: multiset<ScenarioCounter>, notes: multiset<string>, hung: multiset<nat>,
    measurementElapsedMs: nat, startSkewMs: nat, protocolVersion: string, inventoryHash: string)

  function OutlineOf(r: Aggregated): Outline {
    Outline(r.agentNames, r.globalConcurrency, r.metrics, r.perTool, r.scenario, multiset(r.notes), multiset(r.hung),
      r.measurementElapsedMs, r.startSkewMs, r.protocolVersion, r.inventoryHash)
  }

  /** What the merged report must say, computed from the order-free total. */
  ghost function Expected(es: seq<AgentEvidence>): Outline
    requires es != []
  {
    var t := T.Fold(es);
    Outline(Sorted(Names(es)), t.concurrency, MetricsOf(t.recording.overall),
      map tool | tool in t.recording.perTool :: MetricsOf(t.recording.perTool[tool]),
      t.scenario, t.notes, t.hung, t.elapsed, if t.latest < t.earliest then 0 else t.latest - t.earliest,
      es[0].targetProtocolVersion, es[0].toolInventoryHash)
  }

  ghost predicate Acceptable(es: seq<AgentEvidence>) {
    && 0 < |es| < U32_LIMIT
    && Good(es, Expect(|es|, es[0].targetProtocolVersion, es[0].toolInventoryHash))
    && Concludable(T.Fold(es))
  }

  /** Everything but the identities: scopes, layouts and totals. */
  ghost predicate Mergeable(es: seq<AgentEvidence>) {
    && GlobalOk(es)
    && ScenarioFits(T.Fold(es).scenario)
    && (forall t :: ToolsOk(es, t))
    && Concludable(T.Fold(es))
  }

  lemma {:induction false} FoldTools(p: seq<AgentEvidence>, t: string)
    ensures t in T.Fold(p).recording.perTool <==> exists e :: e in p && t in e.perTool
  {
    if p != [] {
      var shorter, last := p[..|p| - 1], p[|p| - 1];
      assert p == shorter + [last];
      FoldTools(shorter, t);
      if t in T.Fold(shorter).recording.perTool {
        var e :| e in shorter && t in e.perTool;
        assert e in p;
      }
      assert last in p;
    }
  }

  lemma {:induction false} ToolsMatch(acc: Acc, es: seq<AgentEvidence>)
    requires forall t :: ToolReached(ToolOf(acc.tools, t), es, t)
    ensures acc.tools.Keys == T.Fold(es).recording.perTool.Keys
    ensures forall t :: t in acc.tools ==> SeriesOfTool(acc.tools[t]) == T.Fold(es).recording.perTool[t]
  {
    hide T.Fold;
    forall t ensures t in acc.tools <==> t in T.Fold(es).recording.perTool {
      FoldTools(es, t);
      assert ToolReached(ToolOf(acc.tools, t), es, t);
    }
    forall t | t in acc.tools ensures SeriesOfTool(acc.tools[t]) == T.Fold(es).recording.perTool[t] {
      assert ToolReached(ToolOf(acc.tools, t), es, t);
    }
  }

  lemma {:induction false} ConcludeIff(acc: Acc, es: seq<AgentEvidence>, x: Expect)
    requires Reached(acc, es) && es != []
    requires x.protocolVersion == es[0].targetProtocolVersion && x.inventoryHash == es[0].toolInventoryHash
    ensures Conclude(acc, x).Ok? <==> Concludable(T.Fold(es))
    ensures Conclude(acc, x).Ok? ==> OutlineOf(Conclude(acc, x).value) == Expected(es)
  {
    hide T.Fold, Names, Indices, ToolReached, Summarize, SummarizeTools, OutcomeTotal, Sorted, MetricsOf, ToolOf, HistOf;
    OutcomeTotalIff(acc.outcomes);
    SummarizeIff(acc.histogram.value.samples, acc.outcomes);
    SummarizeToolsIff(acc.tools, Sorted(acc.tools.Keys));
    ToolsMatch(acc, es);
    SortedMembers(acc.tools.Keys);
    var r := SummarizeTools(acc.tools, Sorted(acc.tools.Keys));
    if r.Ok? {
      assert r.value == map t | t in T.Fold(es).recording.perTool :: MetricsOf(T.Fold(es).recording.perTool[t]);
    }
  }

  lemma {:induction false} SortedMembers(keys: set<string>)
    ensures forall t :: t in Sorted(keys) <==> t in keys
  {
  }

  // ----- main results

  /** Aggregation succeeds exactly on the acceptable cohorts, and then reports the order-free total. */
  lemma {:induction false} AggregateIff(es: seq<AgentEvidence>)
    ensures Aggregate(es).Ok? <==> Acceptable(es)
    ensures Aggregate(es).Ok? ==> es != [] && OutlineOf(Aggregate(es).value) == Expected(es)
  {
    hide Good, Reached, Loop, Conclude, Concludable, Expected;
    if 0 < |es| < U32_LIMIT {
      var x := Expect(|es|, es[0].targetProtocolVersion, es[0].toolInventoryHash);
      LoopIff(es, x);
      if Loop(es, x).Ok? {
        ConcludeIff(Loop(es, x).value, es, x);
      }
    }
  }

  lemma {:induction false} SameMembers(es: seq<AgentEvidence>, fs: seq<AgentEvidence>)
    requires multiset(es) == multiset(fs)
    ensures |es| == |fs| && (forall e :: e in es <==> e in fs)
  {
    assert |es| == |multiset(es)| == |multiset(fs)| == |fs|;
    assert forall e :: e in es <==> e in multiset(es);
    assert forall e :: e in fs <==> e in multiset(fs);
  }

  lemma {:induction false} GoodPermutes(es: seq<AgentEvidence>, fs: seq<AgentEvidence>, x: Expect)
    requires multiset(es) == multiset(fs)
    ensures Good(es, x) ==> Good(fs, x)
    ensures Names(es) == Names(fs)
  {
    hide HeaderOk, ScopeOk, HistOf, Fits, T.Fold, SameLayout;
    SameMembers(es, fs);
    T.FoldPermutes(es, fs);
    assert Names(es) == Names(fs) && Indices(es) == Indices(fs);
    if Good(es, x) {
      forall t ensures ToolsOk(fs, t) {
        assert ToolsOk(es, t);
      }
    }
  }

  lemma {:induction false} FirstIsLikeAny(es: seq<AgentEvidence>, fs: seq<AgentEvidence>)
    requires multiset(es) == multiset(fs) && Acceptable(es)
    ensures fs != [] && |fs| == |es|
    ensures fs[0].targetProtocolVersion == es[0].targetProtocolVersion && fs[0].toolInventoryHash == es[0].toolInventoryHash
  {
    SameMembers(es, fs);
    assert fs[0] in es && es[0] in es;
  }

  /** Order does not matter: any permutation of the evidence is accepted exactly when the first list
      is, and both reports agree on everything but the order of notes and hang durations. */
  lemma {:induction false} AggregateIgnoresOrder(es: seq<AgentEvidence>, fs: seq<AgentEvidence>)
    requires multiset(es) == multiset(fs)
    ensures Aggregate(es).Ok? <==> Aggregate(fs).Ok?
    ensures Aggregate(es).Ok? ==> OutlineOf(Aggregate(es).value) == OutlineOf(Aggregate(fs).value)
  {
    hide Good, Aggregate, T.Fold, Names, Concludable;
    AggregateIff(es);
    AggregateIff(fs);
    T.FoldPermutes(es, fs);
    if Acceptable(es) {
      FirstIsLikeAny(es, fs);
      GoodPermutes(es, fs, Expect(|es|, es[0].targetProtocolVersion, es[0].toolInventoryHash));
    }
    if Acceptable(fs) {
      FirstIsLikeAny(fs, es);
      GoodPermutes(fs, es, Expect(|fs|, fs[0].targetProtocolVersion, fs[0].toolInventoryHash));
    }
  }

  lemma {:induction false} FoldBalanced(p: seq<AgentEvidence>)
    requires forall e :: e in p ==> ScopeOk(e.metrics)
    ensures T.Fold(p).recording.overall.Balanced()
  {
    if p != [] {
      var shorter, last := p[..|p| - 1], p[|p| - 1];
      assert p == shorter + [last];
      FoldBalanced(shorter);
      assert last in p;
    }
  }

  lemma {:induction false} ToolBalanced(e: AgentEvidence, t: string)
    requires t in e.perTool ==> ScopeOk(e.perTool[t])
    ensures (if t in e.perTool then Series(e.perTool[t].outcomes, HistOf(e.perTool[t]).samples) else NO_SERIES).Balanced()
  {
  }

  lemma {:induction false} FoldToolBalanced(p: seq<AgentEvidence>, t: string)
    requires forall e :: e in p && t in e.perTool ==> ScopeOk(e.perTool[t])
    ensures SeriesOf(T.Fold(p).recording.perTool, t).Balanced()
  {
    if p != [] {
      hide *;
      var shorter, last := p[..|p| - 1], p[|p| - 1];
      assert p == shorter + [last];
      FoldToolBalanced(shorter, t);
      ToolSeriesSnoc(shorter, last, t);
      ToolBalanced(last, t);
      BalancedPlus(SeriesOf(T.Fold(shorter).recording.perTool, t),
        if t in last.perTool then Series(last.perTool[t].outcomes, HistOf(last.perTool[t]).samples) else NO_SERIES);
    }
  }

  /** In every report, overall and per tool, there is one latency sample per success, hang and deadlock. */
  lemma {:induction false} ReportBalanced(es: seq<AgentEvidence>)
    requires Aggregate(es).Ok?
    ensures var r := Aggregate(es).value;
      && |r.metrics.samples| == LatencyBearing(r.metrics.outcomes)
      && forall t :: t in r.perTool ==> |r.perTool[t].samples| == LatencyBearing(r.perTool[t].outcomes)
  {
    hide Aggregate, T.Fold, ScopeOk, HeaderOk, Names, Indices, HistOf;
    AggregateIff(es);
    var r := Aggregate(es).value;
    FoldBalanced(es);
    assert r.metrics == MetricsOf(T.Fold(es).recording.overall);
    forall t | t in r.perTool ensures |r.perTool[t].samples| == LatencyBearing(r.perTool[t].outcomes) {
      assert t in OutlineOf(r).perTool;
      assert ToolsOk(es, t);
      FoldToolBalanced(es, t);
    }
  }
}
