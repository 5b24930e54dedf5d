/** Which error a cohort's evidence is refused with, in terms of the evidence alone. */
module AggregateErrors {
  import opened Basics
  import opened Ordering
  import opened Metrics
  import opened Protocol
  import opened Counters
  import opened AggregateSpec
  import A = AggregateMeaning
  import R = AggregateReport
  import T = Totals

  const OUTCOMES: seq<CallOutcome> :=
    [Success, Hang, Deadlock, Timeout, ServerError, CallOutcome.ProtocolError, Crash, Malformed,
     Disconnected, CallOutcome.Cancelled, ExpectedRejection]

  const COUNTERS: seq<ScenarioCounter> :=
    [HangCount, DeadlockCount, TotalCalls, SuccessfulCalls, ErrorCount, DivergenceCount,
     IncompleteWorkerCount, TeardownFailureCount]

  // ----- one scope of one agent

  /** What is wrong with the metrics of one scope, taken alone. */
  function ScopeFault(agent: string, scope: string, m: MetricsEvidence): Option<AggregateError> {
    var bearing := m.outcomes[Success] + m.outcomes[Hang] + m.outcomes[Deadlock];
    if m.latency.encoding != "hdr-v2-base64" then Some(UnsupportedHistogramEncoding(m.latency.encoding))
    else if m.latency.payload == None then Some(HistogramDecode)
    else
      var size := |m.latency.payload.value.samples|;
      if size != m.latency.count then Some(HistogramCountMismatch(m.latency.count, size))
      else if bearing >= 18446744073709551616 then Some(CounterOverflow("latency_outcomes"))
      else if size != bearing then Some(LatencyOutcomeMismatch(agent, scope, size, bearing))
      else None
  }

  /** Two histograms of different range or precision. */
  predicate Unlike(a: HistogramEvidence, b: HistogramEvidence) {
    && a.payload.Some? && b.payload.Some?
    && (a.payload.value.low, a.payload.value.high, a.payload.value.sigfig)
       != (b.payload.value.low, b.payload.value.high, b.payload.value.sigfig)
  }

  /** The first of the listed fields whose sum does not fit. */
  function FirstOver<X>(order: seq<X>, sum: X -> nat, cap: X -> nat): Option<X> {
    if order == [] then None
    else
      var earlier, last := FirstOver(order[..|order| - 1], sum, cap), order[|order| - 1];
      if earlier.Some? then earlier else if sum(last) >= cap(last) then Some(last) else None
  }

  function Wide(o: CallOutcome): nat {
    18446744073709551616
  }

  function Width(c: ScenarioCounter): nat {
    if c == HangCount || c == DeadlockCount then 4294967296 else 18446744073709551616
  }

  // ----- one agent after others

  function CallSums(p: seq<AgentEvidence>, e: AgentEvidence): CallOutcome -> nat {
    o => R.CallsOf(p, o) + e.metrics.outcomes[o]
  }

  function ScenarioSums(p: seq<AgentEvidence>, e: AgentEvidence): ScenarioCounter -> nat {
    c => R.ScenarioOf(p, c) + e.scenarioOutcome.counts[c]
  }

  function ToolSums(p: seq<AgentEvidence>, e: AgentEvidence, t: string): CallOutcome -> nat
    requires t in e.perTool
  {
    o => R.ToolCallsOf(p, t, o) + e.perTool[t].outcomes[o]
  }

  ghost predicate NameTaken(p: seq<AgentEvidence>, name: string) {
    exists f :: f in p && f.agentName == name
  }

  ghost predicate IndexTaken(p: seq<AgentEvidence>, index: nat) {
    exists f :: f in p && f.shard.index == index
  }

  ghost function IdentityFault(p: seq<AgentEvidence>, e: AgentEvidence, count: nat, protocol: string,
        inventory: string): Option<AggregateError>
  {
    if NameTaken(p, e.agentName) then Some(DuplicateAgent(e.agentName))
    else if e.shard.agentName != e.agentName then Some(ShardIdentityMismatch(e.agentName, e.shard.agentName))
    else if e.shard.agentCount != count || e.shard.index >= count || e.shard.concurrency == 0 then
      Some(InvalidShard(e.agentName))
    else if IndexTaken(p, e.shard.index) then Some(InvalidShard(e.agentName))
    else if e.targetProtocolVersion != protocol then
      Some(TargetProtocolMismatch(protocol, e.targetProtocolVersion, e.agentName))
    else if e.toolInventoryHash != inventory then Some(ToolInventoryMismatch(e.agentName))
    else if R.SessionsOf(p) + e.shard.concurrency >= 4294967296 then Some(CounterOverflow("global_concurrency"))
    else None
  }

  ghost function GlobalFault(p: seq<AgentEvidence>, e: AgentEvidence): Option<AggregateError> {
    var alone := ScopeFault(e.agentName, "global", e.metrics);
    if alone.Some? then alone
    else if exists f :: f in p && Unlike(f.metrics.latency, e.metrics.latency) then
      Some(HistogramLayoutMismatch(e.agentName, "global"))
    else
      var over := FirstOver(OUTCOMES, CallSums(p, e), Wide);
      if over.Some? then Some(OutcomeOverflow(over.value)) else None
  }

  ghost function ScenarioFault(p: seq<AgentEvidence>, e: AgentEvidence): Option<AggregateError> {
    var over := FirstOver(COUNTERS, ScenarioSums(p, e), Width);
    if over.Some? then Some(ScenarioOverflow(over.value)) else None
  }

  ghost function ToolFault(p: seq<AgentEvidence>, e: AgentEvidence, t: string): Option<AggregateError>
    requires t in e.perTool
  {
    var alone := ScopeFault(e.agentName, t, e.perTool[t]);
    if alone.Some? then alone
    else if exists f :: f in p && t in f.perTool && Unlike(f.perTool[t].latency, e.perTool[t].latency) then
      Some(HistogramLayoutMismatch(e.agentName, t))
    else
      var over := FirstOver(OUTCOMES, ToolSums(p, e, t), Wide);
      if over.Some? then Some(OutcomeOverflow(over.value)) else None
  }

  /** The fault of the first of the listed tools that has one. */
  ghost function ToolsFault(p: seq<AgentEvidence>, e: AgentEvidence, order: seq<string>): Option<AggregateError>
    requires forall t :: t in order ==> t in e.perTool
  {
    if order == [] then None
    else
      var earlier := ToolsFault(p, e, order[..|order| - 1]);
      if earlier.Some? then earlier else ToolFault(p, e, order[|order| - 1])
  }

  /** The first check an agent's evidence fails, after the evidence of the agents before it. */
  ghost function Fault(p: seq<AgentEvidence>, e: AgentEvidence, count: nat, protocol: string,
        inventory: string): Option<AggregateError>
  {
    if IdentityFault(p, e, count, protocol, inventory).Some? then IdentityFault(p, e, count, protocol, inventory)
    else if GlobalFault(p, e).Some? then GlobalFault(p, e)
    else if ScenarioFault(p, e).Some? then ScenarioFault(p, e)
    else ToolsFault(p, e, Sorted(e.perTool.Keys))
  }

  // ----- the whole cohort

  /** The fault of the first agent that has one. */
  ghost function AnyFault(es: seq<AgentEvidence>, count: nat, protocol: string, inventory: string): Option<AggregateError> {
    if es == [] then None
    else
      var before, e := es[..|es| - 1], es[|es| - 1];
      if AnyFault(before, count, protocol, inventory).Some? then AnyFault(before, count, protocol, inventory)
      else Fault(before, e, count, protocol, inventory)
  }

  /** Checked addition names the first field that leaves its range. */
  lemma {:induction false} AddFieldsError<X>(into: multiset<X>, from: multiset<X>, order: seq<X>, limit: X -> nat, i: nat)
    requires Distinct(order) && i < |order|
    requires into[order[i]] + from[order[i]] >= limit(order[i])
    requires forall j :: 0 <= j < i ==> into[order[j]] + from[order[j]] < limit(order[j])
    ensures AddFields(into, from, order, limit) == Err(order[i])
    decreases i
  {
    if i > 0 {
      var next := into[order[0] := into[order[0]] + from[order[0]]];
      forall j | 0 < j < |order| ensures next[order[j]] == into[order[j]] {
        assert order[0] != order[j];
      }
      AddFieldsError(next, from, order[1..], limit, i - 1);
    }
  }

  lemma {:induction false} FirstOverAt<X>(order: seq<X>, sum: X -> nat, cap: X -> nat) returns (i: nat)
    ensures i <= |order| && forall j :: 0 <= j < i ==> sum(order[j]) < cap(order[j])
    ensures FirstOver(order, sum, cap) == if i < |order| then Some(order[i]) else None
    ensures i < |order| ==> sum(order[i]) >= cap(order[i])
  {
    if order == [] {
      i := 0;
    } else {
      var n := |order| - 1;
      i := FirstOverAt(order[..n], sum, cap);
      if i == n && sum(order[n]) < cap(order[n]) {
        i := n + 1;
      }
    }
  }

  /** Adding checked and looking for the first sum that does not fit are the same. */
  lemma {:induction false} AddFieldsIs<X>(into: multiset<X>, from: multiset<X>, order: seq<X>, limit: X -> nat,
        sum: X -> nat, cap: X -> nat)
    requires Distinct(order)
    requires forall f :: f in order ==> sum(f) == into[f] + from[f] && cap(f) == limit(f)
    ensures var first := FirstOver(order, sum, cap);
      if first.Some? then AddFields(into, from, order, limit) == Err(first.value) else AddFields(into, from, order, limit).Ok?
  {
    var i := FirstOverAt(order, sum, cap);
    assert forall j :: 0 <= j < |order| ==> order[j] in order;
    if i < |order| {
      AddFieldsError(into, from, order, limit, i);
    } else {
      AddFieldsMeaning(into, from, order, limit);
    }
  }

  // ----- one scope

  function ErrorOf<X>(r: Result<X, AggregateError>): Option<AggregateError> {
    if r.Ok? then None else Some(r.error)
  }

  lemma {:induction false} ScopeFaultIs(agent: string, scope: string, m: MetricsEvidence)
    ensures ErrorOf(Validated(agent, scope, m)) == ScopeFault(agent, scope, m)
    ensures ScopeFault(agent, scope, m) == None ==> m.latency.payload == Some(Validated(agent, scope, m).value)
  {
    assert U64_LIMIT == 18446744073709551616;
  }

  lemma {:induction false} OutcomesFaultIs(into: OutcomeCounts, from: OutcomeCounts, sum: CallOutcome -> nat)
    requires forall o :: sum(o) == into[o] + from[o]
    ensures var over := FirstOver(OUTCOMES, sum, Wide);
      ErrorOf(AddOutcomes(into, from)) == if over.Some? then Some(OutcomeOverflow(over.value)) else None
  {
    A.OutcomeOrderComplete(Success);
    assert OUTCOMES == OUTCOME_ORDER;
    AddFieldsIs(into, from, OUTCOME_ORDER, OutcomeLimit, sum, Wide);
    hide AddFields, FirstOver;
  }

  lemma {:induction false} CountersFaultIs(into: multiset<ScenarioCounter>, from: multiset<ScenarioCounter>,
        sum: ScenarioCounter -> nat)
    requires forall c :: sum(c) == into[c] + from[c]
    ensures var over := FirstOver(COUNTERS, sum, Width);
      ErrorOf(AddScenario(into, from)) == if over.Some? then Some(ScenarioOverflow(over.value)) else None
  {
    A.ScenarioOrderComplete(HangCount);
    assert COUNTERS == SCENARIO_ORDER;
    AddFieldsIs(into, from, SCENARIO_ORDER, CounterLimit, sum, Width);
    hide AddFields, FirstOver;
  }

  lemma {:induction false} ScenarioFaultIs(p: seq<AgentEvidence>, e: AgentEvidence)
    ensures ErrorOf(AddScenario(T.Fold(p).scenario, e.scenarioOutcome.counts)) == ScenarioFault(p, e)
  {
    R.FoldCounts(p);
    hide AddScenario, FirstOver, T.Fold, R.ScenarioOf;
    CountersFaultIs(T.Fold(p).scenario, e.scenarioOutcome.counts, ScenarioSums(p, e));
  }

  lemma {:induction false} LayoutIs(into: Histogram, f: HistogramEvidence, m: HistogramEvidence)
    requires f.payload.Some? && m.payload.Some? && SameLayout(into, f.payload.value)
    ensures Unlike(f, m) <==> !SameLayout(into, m.payload.value)
  {
  }

  /** The global scope of one more agent: what is wrong with it is what stops the loop. */
  lemma {:induction false} GlobalFaultIs(acc: Acc, p: seq<AgentEvidence>, e: AgentEvidence)
    requires A.GlobalReached(acc, p) && A.GlobalOk(p)
    ensures GlobalFault(p, e) == (
      match Validated(e.agentName, "global", e.metrics)
      case Err(x) => Some(x)
      case Ok(h) =>
        match MergeHistogram(acc.histogram, h, e.agentName, "global")
        case Err(x) => Some(x)
        case Ok(_) => ErrorOf(AddOutcomes(acc.outcomes, e.metrics.outcomes)))
  {
    R.FoldCounts(p);
    ScopeFaultIs(e.agentName, "global", e.metrics);
    hide Validated, AddOutcomes, FirstOver, T.Fold, R.CallsOf, ScopeFault, SameLayout, Unlike, Fits;
    OutcomesFaultIs(acc.outcomes, e.metrics.outcomes, CallSums(p, e));
    if ScopeFault(e.agentName, "global", e.metrics) == None {
      forall f | f in p
        ensures Unlike(f.metrics.latency, e.metrics.latency) <==> !SameLayout(acc.histogram.value, e.metrics.latency.payload.value)
      {
        assert A.ScopeOk(f.metrics);
        LayoutIs(acc.histogram.value, f.metrics.latency, e.metrics.latency);
      }
      if p != [] {
        assert p[0] in p;
      }
    }
  }

  lemma {:induction false} ToolLayoutIs(into: Option<ToolTotals>, p: seq<AgentEvidence>, e: AgentEvidence, t: string)
    requires A.ToolReached(into, p, t) && A.ToolsOk(p, t) && t in e.perTool && e.perTool[t].latency.payload.Some?
    ensures (exists f :: f in p && t in f.perTool && Unlike(f.perTool[t].latency, e.perTool[t].latency))
      <==> into.Some? && !SameLayout(into.value.histogram, e.perTool[t].latency.payload.value)
  {
    hide T.Fold, SameLayout, Unlike, Fits;
    forall f | f in p && t in f.perTool
      ensures Unlike(f.perTool[t].latency, e.perTool[t].latency)
        <==> !SameLayout(into.value.histogram, e.perTool[t].latency.payload.value)
    {
      assert A.ScopeOk(f.perTool[t]);
      LayoutIs(into.value.histogram, f.perTool[t].latency, e.perTool[t].latency);
    }
  }

  lemma {:induction false} ToolSumsAre(into: Option<ToolTotals>, p: seq<AgentEvidence>, e: AgentEvidence, t: string)
    requires A.ToolReached(into, p, t) && t in e.perTool
    ensures forall o :: ToolSums(p, e, t)(o) == A.ToolOutcomes(into)[o] + e.perTool[t].outcomes[o]
  {
    R.FoldToolCounts(p, t);
    hide T.Fold, SeriesOf, R.ToolCallsOf;
  }

  lemma {:induction false} ToolFaultIs(into: Option<ToolTotals>, p: seq<AgentEvidence>, e: AgentEvidence, t: string)
    requires A.ToolReached(into, p, t) && A.ToolsOk(p, t) && t in e.perTool
    ensures ToolFault(p, e, t) == ErrorOf(MergeTool(into, e.agentName, t, e.perTool[t]))
  {
    hide Validated, AddOutcomes, FirstOver, ScopeFault, SameLayout, Unlike, A.ToolReached, A.ToolsOk, ToolSums;
    ScopeFaultIs(e.agentName, t, e.perTool[t]);
    ToolSumsAre(into, p, e, t);
    OutcomesFaultIs(A.ToolOutcomes(into), e.perTool[t].outcomes, ToolSums(p, e, t));
    if ScopeFault(e.agentName, t, e.perTool[t]) == None {
      ToolLayoutIs(into, p, e, t);
    }
  }

  /** The tools of one agent, in ascending order. */
  lemma {:induction false} ToolsFaultIs(tools: map<string, ToolTotals>, p: seq<AgentEvidence>, e: AgentEvidence,
        order: seq<string>)
    requires forall t :: A.ToolReached(ToolOf(tools, t), p, t) && A.ToolsOk(p, t)
    requires Ascending(order) && forall t :: t in order ==> t in e.perTool
    ensures ToolsFault(p, e, order) == ErrorOf(AggregateSpec.MergeTools(tools, e, order))
  {
    hide MergeTool, Ascending, ToolFault, A.ToolReached, A.ToolsOk, ToolOf;
    if order != [] {
      var shorter, last := order[..|order| - 1], order[|order| - 1];
      assert order == shorter + [last];
      A.AscendingShorter(order);
      ToolsFaultIs(tools, p, e, shorter);
      A.MergeToolsIff(tools, e, shorter);
      assert A.ToolReached(ToolOf(tools, last), p, last);
      ToolFaultIs(ToolOf(tools, last), p, e, last);
    }
  }

  lemma {:induction false} HeaderIs(acc: Acc, p: seq<AgentEvidence>)
    requires A.HeaderReached(acc, p)
    ensures forall n :: n in acc.names <==> NameTaken(p, n)
    ensures forall i :: i in acc.indices <==> IndexTaken(p, i)
    ensures acc.concurrency == R.SessionsOf(p)
  {
    R.FoldCounts(p);
    hide T.Fold, R.SessionsOf;
  }

  lemma {:induction false} IdentityFaultIs(acc: Acc, p: seq<AgentEvidence>, e: AgentEvidence, x: Expect)
    requires e.agentName in acc.names <==> NameTaken(p, e.agentName)
    requires e.shard.index in acc.indices <==> IndexTaken(p, e.shard.index)
    requires acc.concurrency == R.SessionsOf(p)
    ensures IdentityFault(p, e, x.count, x.protocolVersion, x.inventoryHash) == IdentityProblem(acc, e, x)
  {
    hide R.SessionsOf, NameTaken, IndexTaken;
    assert U32_LIMIT == 4294967296;
  }

  lemma {:induction false} FaultIs(acc: Acc, p: seq<AgentEvidence>, e: AgentEvidence, x: Expect)
    requires A.Reached(acc, p) && A.Good(p, x)
    ensures Fault(p, e, x.count, x.protocolVersion, x.inventoryHash) == ErrorOf(Step(acc, e, x))
  {
    hide IdentityFault, GlobalFault, ScenarioFault, ToolsFault, Sorted, IdentityProblem, Validated, MergeHistogram,
      AddOutcomes, AddScenario, AggregateSpec.MergeTools, T.Fold, T.Prefixed, T.Min, T.Max, A.ToolReached, A.ToolsOk,
      A.GlobalReached, A.GlobalOk, A.IdentitiesOk, A.ScenarioFits, A.Names, A.Indices;
    HeaderIs(acc, p);
    IdentityFaultIs(acc, p, e, x);
    GlobalFaultIs(acc, p, e);
    ScenarioFaultIs(p, e);
    ToolsFaultIs(acc.tools, p, e, Sorted(e.perTool.Keys));
  }

  /** The loop stops with the fault of the first agent that has one. */
  lemma {:induction false} AnyFaultIs(es: seq<AgentEvidence>, x: Expect)
    ensures AnyFault(es, x.count, x.protocolVersion, x.inventoryHash) == ErrorOf(Loop(es, x))
  {
    hide Fault, Step, A.Reached, A.Good;
    if es != [] {
      var shorter := es[..|es| - 1];
      AnyFaultIs(shorter, x);
      A.LoopIff(shorter, x);
      if Loop(shorter, x).Ok? {
        FaultIs(Loop(shorter, x).value, shorter, es[|es| - 1], x);
      }
    }
  }

  // ----- the summary at the end

  function CohortCalls(es: seq<AgentEvidence>): CallOutcome -> nat {
    o => R.CallsOf(es, o)
  }

  function CohortToolCalls(es: seq<AgentEvidence>, t: string): CallOutcome -> nat {
    o => R.ToolCallsOf(es, t, o)
  }

  /** The first counter at which the running total no longer fits. */
  function FirstTotalOver(order: seq<CallOutcome>, count: CallOutcome -> nat, total: nat): Option<CallOutcome> {
    if order == [] then None
    else if total + count(order[0]) >= 18446744073709551616 then Some(order[0])
    else FirstTotalOver(order[1..], count, total + count(order[0]))
  }

  lemma {:induction false} TotalsAre(m: OutcomeCounts, order: seq<CallOutcome>, count: CallOutcome -> nat, total: nat)
    requires forall o :: count(o) == m[o]
    ensures var over := FirstTotalOver(order, count, total);
      if over.Some? then TotalFields(m, order, total, U64_LIMIT) == Err(over.value)
      else TotalFields(m, order, total, U64_LIMIT).Ok?
    decreases |order|
  {
    if order != [] && total + m[order[0]] < U64_LIMIT {
      TotalsAre(m, order[1..], count, total + m[order[0]]);
    }
  }

  function TotalFault(count: CallOutcome -> nat): Option<AggregateError> {
    var over := FirstTotalOver(OUTCOMES, count, 0);
    if over.Some? then Some(OutcomeOverflow(over.value)) else None
  }

  function ToolsOf(es: seq<AgentEvidence>): set<string> {
    set e, t | e in es && t in e.perTool :: t
  }

  ghost function ToolTotalsFault(es: seq<AgentEvidence>, order: seq<string>): Option<AggregateError> {
    if order == [] then None
    else
      var earlier := ToolTotalsFault(es, order[..|order| - 1]);
      if earlier.Some? then earlier else TotalFault(CohortToolCalls(es, order[|order| - 1]))
  }

  /** With every agent merged: the calls are counted up, some call must have taken time, and every tool is
      counted up. */
  ghost function FinalFault(es: seq<AgentEvidence>): Option<AggregateError> {
    if TotalFault(CohortCalls(es)).Some? then TotalFault(CohortCalls(es))
    else if R.AllCalls(es) > 0 && forall e :: e in es ==> e.measurementElapsedMs == 0 then Some(MissingMeasurementInterval)
    else ToolTotalsFault(es, Sorted(ToolsOf(es)))
  }

  lemma {:induction false} TotalFaultIs(m: OutcomeCounts, samples: multiset<nat>, count: CallOutcome -> nat)
    requires forall o :: count(o) == m[o]
    ensures ErrorOf(OutcomeTotal(m)) == TotalFault(count) == ErrorOf(Summarize(samples, m))
  {
    assert OUTCOMES == OUTCOME_ORDER;
    TotalsAre(m, OUTCOMES, count, 0);
    A.OutcomeTotalIff(m);
    A.SummarizeIff(samples, m);
    hide TotalFields, FirstTotalOver;
  }

  lemma {:induction false} ToolTotalsAre(tools: map<string, ToolTotals>, es: seq<AgentEvidence>, order: seq<string>)
    requires forall t :: t in order ==> t in tools
    requires forall t :: t in tools ==> A.ToolReached(ToolOf(tools, t), es, t)
    ensures ToolTotalsFault(es, order) == ErrorOf(SummarizeTools(tools, order))
  {
    hide Summarize, TotalFault, T.Fold;
    if order != [] {
      var t := order[|order| - 1];
      ToolTotalsAre(tools, es, order[..|order| - 1]);
      assert A.ToolReached(ToolOf(tools, t), es, t);
      R.FoldToolCounts(es, t);
      TotalFaultIs(tools[t].outcomes, tools[t].histogram.samples, CohortToolCalls(es, t));
    }
  }

  lemma {:induction false} CallsReached(acc: Acc, es: seq<AgentEvidence>)
    requires A.GlobalReached(acc, es)
    ensures |acc.outcomes| == R.AllCalls(es) && forall o :: CohortCalls(es)(o) == acc.outcomes[o]
  {
    R.FoldCounts(es);
    hide T.Fold, R.AllCalls, R.CallsOf;
  }

  lemma {:induction false} ElapsedReached(acc: Acc, es: seq<AgentEvidence>)
    requires acc.elapsed == T.Fold(es).elapsed && es != []
    ensures acc.elapsed == 0 <==> forall e :: e in es ==> e.measurementElapsedMs == 0
  {
    R.FoldTimes(es);
    hide T.Fold;
    forall e | e in es ensures acc.elapsed == 0 ==> e.measurementElapsedMs == 0 {
      assert R.Elapsed(e) <= T.Fold(es).elapsed;
    }
    if forall e :: e in es ==> e.measurementElapsedMs == 0 {
      var e :| e in es && R.Elapsed(e) == T.Fold(es).elapsed;
    }
  }

  lemma {:induction false} ToolsReached(acc: Acc, es: seq<AgentEvidence>)
    requires forall t :: A.ToolReached(ToolOf(acc.tools, t), es, t)
    ensures acc.tools.Keys == ToolsOf(es)
  {
    hide T.Fold;
    forall t ensures t in acc.tools <==> t in ToolsOf(es) {
      assert A.ToolReached(ToolOf(acc.tools, t), es, t);
    }
  }

  lemma {:induction false} ConcludeFaultIs(acc: Acc, es: seq<AgentEvidence>, x: Expect)
    requires es != [] && acc.histogram.Some? && |acc.outcomes| == R.AllCalls(es)
    requires acc.elapsed == 0 <==> forall e :: e in es ==> e.measurementElapsedMs == 0
    requires ErrorOf(OutcomeTotal(acc.outcomes)) == TotalFault(CohortCalls(es))
      == ErrorOf(Summarize(acc.histogram.value.samples, acc.outcomes))
    requires OutcomeTotal(acc.outcomes).Ok? ==> OutcomeTotal(acc.outcomes).value == |acc.outcomes|
    requires acc.tools.Keys == ToolsOf(es)
    requires ErrorOf(SummarizeTools(acc.tools, Sorted(acc.tools.Keys))) == ToolTotalsFault(es, Sorted(acc.tools.Keys))
    ensures FinalFault(es) == ErrorOf(Conclude(acc, x))
  {
    hide R.AllCalls, CohortCalls, ToolsOf, TotalFault, ToolTotalsFault, Summarize, SummarizeTools, OutcomeTotal, Sorted;
  }

  lemma {:induction false} FinalFaultIs(acc: Acc, es: seq<AgentEvidence>, x: Expect)
    requires A.Reached(acc, es) && es != []
    ensures FinalFault(es) == ErrorOf(Conclude(acc, x))
  {
    hide R.AllCalls, CohortCalls, ToolsOf, TotalFault, ToolTotalsFault, Summarize, SummarizeTools, OutcomeTotal, Sorted,
      T.Fold, A.ToolReached, ToolOf, FinalFault, Conclude;
    CallsReached(acc, es);
    ElapsedReached(acc, es);
    ToolsReached(acc, es);
    TotalFaultIs(acc.outcomes, acc.histogram.value.samples, CohortCalls(es));
    A.OutcomeTotalIff(acc.outcomes);
    ToolTotalsAre(acc.tools, es, Sorted(acc.tools.Keys));
    ConcludeFaultIs(acc, es, x);
  }

  // ----- main result

  /** Which error a cohort is refused with, and that it is refused with none otherwise: nobody, too many
      agents, the first fault of the first agent that has one, or a fault of the whole. */
  lemma {:induction false} AggregateErrorIs(es: seq<AgentEvidence>)
    ensures es == [] ==> Aggregate(es) == Err(EmptyCohort)
    ensures |es| >= 4294967296 ==> Aggregate(es) == Err(CounterOverflow("agent_count"))
    ensures 0 < |es| < 4294967296 ==>
      var fault := AnyFault(es, |es|, es[0].targetProtocolVersion, es[0].toolInventoryHash);
      var expected := if fault.Some? then fault else FinalFault(es);
      if expected.Some? then Aggregate(es) == Err(expected.value) else Aggregate(es).Ok?
  {
    hide Loop, Conclude, AnyFault, FinalFault, A.Reached, A.Good;
    if 0 < |es| < U32_LIMIT {
      var x := Expect(|es|, es[0].targetProtocolVersion, es[0].toolInventoryHash);
      AnyFaultIs(es, x);
      A.LoopIff(es, x);
      if Loop(es, x).Ok? {
        FinalFaultIs(Loop(es, x).value, es, x);
      }
    }
  }
}
