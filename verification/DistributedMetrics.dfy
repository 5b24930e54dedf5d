/** Distributed measurement agrees with local measurement: from recorders to the merged report. */
module DistributedMetrics {
  import opened Basics
  import opened Metrics
  import opened Protocol
  import opened RecorderSpec
  import Ordering
  import Runs = RecorderRuns
  import S = AggregateSpec
  import A = AggregateMeaning
  import T = Totals

  /** Fewer calls than a 64-bit counter can hold. */
  predicate Countable(calls: seq<Call>) {
    |calls| < U64_LIMIT
  }

  /** The evidence an agent makes of one scope of its recorder. */
  ghost predicate ScopeEvidence(m: MetricsEvidence, series: Series) {
    && |series.samples| < U64_LIMIT
    && m.latency == HistogramEvidence(HDR_ENCODING, Some(Histogram(1, MAX_LATENCY_US, 3, series.samples)), |series.samples|)
    && m.outcomes == series.outcomes
  }

  /** The evidence an agent makes of its recorder, globally and tool by tool. */
  ghost predicate Reports(e: AgentEvidence, r: Recording) {
    && ScopeEvidence(e.metrics, r.overall)
    && e.perTool.Keys == r.perTool.Keys
    && forall t :: t in r.perTool ==> ScopeEvidence(e.perTool[t], r.perTool[t])
  }

  lemma {:induction false} ReportedRecording(e: AgentEvidence, r: Recording)
    requires Reports(e, r)
    ensures T.RecordingOf(e) == r
  {
    assert T.RecordingOf(e).perTool.Keys == r.perTool.Keys;
    forall t | t in r.perTool ensures T.RecordingOf(e).perTool[t] == r.perTool[t] {
    }
  }

  /** Evidence of any recorder that has finished its calls passes every check on its scopes. */
  lemma {:induction false} ReportsAreSound(e: AgentEvidence, calls: seq<Call>)
    requires Countable(calls) && Reports(e, Summary(calls))
    ensures A.ScopeOk(e.metrics) && forall t :: t in e.perTool ==> A.ScopeOk(e.perTool[t])
  {
    hide Summary;
    SummaryBalanced(calls, "");
    SummaryCounts(calls, "");
    A.PartOfTotal(Summary(calls).overall.outcomes);
    forall t | t in e.perTool ensures A.ScopeOk(e.perTool[t]) {
      SummaryBalanced(calls, t);
      SummaryCounts(calls, t);
      A.PartOfTotal(Summary(calls).perTool[t].outcomes);
      assert ScopeEvidence(e.perTool[t], Summary(calls).perTool[t]);
    }
  }

  function Joined(parts: seq<seq<Call>>): seq<Call> {
    if parts == [] then [] else Joined(parts[..|parts| - 1]) + parts[|parts| - 1]
  }

  /** Agent by agent, the evidence reports what that agent's own calls amount to. */
  ghost predicate AllReport(es: seq<AgentEvidence>, parts: seq<seq<Call>>) {
    |es| == |parts| && forall i :: 0 <= i < |es| ==> Countable(parts[i]) && Reports(es[i], Summary(parts[i]))
  }

  lemma {:induction false} FoldIsSummary(es: seq<AgentEvidence>, parts: seq<seq<Call>>)
    requires AllReport(es, parts)
    ensures T.Fold(es).recording == Summary(Joined(parts))
  {
    if es != [] {
      var n := |es| - 1;
      assert AllReport(es[..n], parts[..n]) by {
        hide Reports, Countable;
        assert forall i :: 0 <= i < n ==> es[..n][i] == es[i] && parts[..n][i] == parts[i];
      }
      assert Reports(es[n], Summary(parts[n]));
      FoldIsSummary(es[..n], parts[..n]);
      hide Summary, Reports, AllReport, T.RecordingOf, Recording.Plus;
      ReportedRecording(es[n], Summary(parts[n]));
      SummaryConcat(Joined(parts[..n]), parts[n]);
    }
  }

  lemma {:induction false} EachFits(m: OutcomeCounts, size: nat)
    requires |m| <= size
    ensures size < U64_LIMIT ==> Fits(m)
  {
    forall o ensures m[o] <= |m| {
      assert m == multiset{}[o := m[o]] + m[o := 0];
    }
  }

  lemma {:induction false} ReportedScopes(es: seq<AgentEvidence>, parts: seq<seq<Call>>, e: AgentEvidence)
    requires AllReport(es, parts) && e in es
    ensures A.ScopeOk(e.metrics) && forall t :: t in e.perTool ==> A.ScopeOk(e.perTool[t])
    ensures IsRecorderLayout(A.HistOf(e.metrics))
    ensures forall t :: t in e.perTool ==> IsRecorderLayout(A.HistOf(e.perTool[t]))
  {
    hide Summary, A.ScopeOk;
    var i :| 0 <= i < |es| && es[i] == e;
    assert Countable(parts[i]) && Reports(e, Summary(parts[i]));
    ReportsAreSound(e, parts[i]);
    forall t | t in e.perTool ensures IsRecorderLayout(A.HistOf(e.perTool[t])) {
      assert ScopeEvidence(e.perTool[t], Summary(parts[i]).perTool[t]);
    }
  }

  /** The layout every recorder gives its histograms. */
  predicate IsRecorderLayout(h: Histogram) {
    h.low == 1 && h.high == MAX_LATENCY_US && h.sigfig == 3
  }

  /** What is left to check of a cohort whose evidence comes from recorders: the calls of all agents fit
      64 bits, so do the scenario counters, and somebody measured for a while if there were calls. */
  ghost predicate Reportable(es: seq<AgentEvidence>, parts: seq<seq<Call>>) {
    && |Joined(parts)| < U64_LIMIT
    && A.ScenarioFits(T.Fold(es).scenario)
    && (Joined(parts) != [] ==> exists e :: e in es && e.measurementElapsedMs > 0)
  }

  lemma {:induction false} ElapsedIff(es: seq<AgentEvidence>)
    ensures T.Fold(es).elapsed > 0 <==> exists e :: e in es && e.measurementElapsedMs > 0
  {
    if es != [] {
      var shorter, last := es[..|es| - 1], es[|es| - 1];
      assert es == shorter + [last];
      ElapsedIff(shorter);
      assert T.Fold(es).elapsed == T.Max(T.Fold(shorter).elapsed, last.measurementElapsedMs);
      hide T.Fold;
      assert last in es;
      if e :| e in shorter && e.measurementElapsedMs > 0 {
        assert e in es;
      }
    }
  }

  lemma {:induction false} ReportedScopesMerge(es: seq<AgentEvidence>, parts: seq<seq<Call>>)
    requires AllReport(es, parts)
    ensures |Joined(parts)| < U64_LIMIT ==> A.GlobalOk(es) && forall t :: A.ToolsOk(es, t)
  {
    hide T.Fold, Summary, AllReport, A.ScopeOk, A.HistOf, Joined, Fits;
    FoldIsSummary(es, parts);
    forall e | e in es
      ensures A.ScopeOk(e.metrics) && IsRecorderLayout(A.HistOf(e.metrics))
      ensures forall t :: t in e.perTool ==> A.ScopeOk(e.perTool[t]) && IsRecorderLayout(A.HistOf(e.perTool[t]))
    {
      ReportedScopes(es, parts, e);
    }
    if |Joined(parts)| < U64_LIMIT {
      SummaryCounts(Joined(parts), "");
      EachFits(Summary(Joined(parts)).overall.outcomes, |Joined(parts)|);
      forall t ensures A.ToolsOk(es, t) {
        SummaryCounts(Joined(parts), t);
        EachFits(SeriesOf(Summary(Joined(parts)).perTool, t).outcomes, |Joined(parts)|);
      }
    }
  }

  lemma {:induction false} ReportConcludes(es: seq<AgentEvidence>, parts: seq<seq<Call>>)
    requires AllReport(es, parts)
    ensures A.Concludable(T.Fold(es)) <==>
      |Joined(parts)| < U64_LIMIT && (Joined(parts) != [] ==> T.Fold(es).elapsed > 0)
  {
    hide T.Fold, Summary, AllReport, Joined;
    FoldIsSummary(es, parts);
    var r := Summary(Joined(parts));
    SummaryCounts(Joined(parts), "");
    forall t | t in r.perTool ensures |r.perTool[t].outcomes| <= |Joined(parts)| {
      SummaryCounts(Joined(parts), t);
    }
  }

  /** The report exists: evidence of recorders is aggregated exactly if there is an agent, the identities
      match, and the totals are reportable. No check on histograms or counters can stand in the way. */
  lemma {:induction false} ReportExistsIff(es: seq<AgentEvidence>, parts: seq<seq<Call>>)
    requires AllReport(es, parts)
    ensures S.Aggregate(es).Ok? <==>
      && 0 < |es| < U32_LIMIT
      && A.IdentitiesOk(es, S.Expect(|es|, es[0].targetProtocolVersion, es[0].toolInventoryHash))
      && Reportable(es, parts)
  {
    hide S.Aggregate, T.Fold, AllReport, A.IdentitiesOk, A.GlobalOk, A.ToolsOk, A.ScenarioFits, A.Concludable, Joined;
    A.AggregateIff(es);
    ReportedScopesMerge(es, parts);
    ReportConcludes(es, parts);
    ElapsedIff(es);
  }

  /** Distributed equals local. However a body of calls is split over agents, the report
      that ReportExistsIff promises has exactly the samples, counters and tools of one recorder that was fed
      every call, in any order. */
  lemma {:induction false} DistributedEqualsLocal(es: seq<AgentEvidence>, parts: seq<seq<Call>>, calls: seq<Call>)
    requires AllReport(es, parts) && multiset(calls) == multiset(Joined(parts))
    requires S.Aggregate(es).Ok?
    ensures S.Aggregate(es).value.metrics == A.MetricsOf(Summary(calls).overall)
    ensures S.Aggregate(es).value.perTool == map t | t in Summary(calls).perTool :: A.MetricsOf(Summary(calls).perTool[t])
  {
    hide S.Aggregate, Summary, T.Fold, A.Acceptable, A.MetricsOf, AllReport, Joined;
    A.AggregateIff(es);
    FoldIsSummary(es, parts);
    SummaryIgnoresOrder(calls, Joined(parts));
    var r := S.Aggregate(es).value;
    assert A.OutlineOf(r).metrics == A.Expected(es).metrics && A.OutlineOf(r).perTool == A.Expected(es).perTool;
  }

  // ----- the error that such evidence can never raise

  predicate Mismatch<V>(r: Result<V, S.AggregateError>) {
    r.Err? && r.error.LatencyOutcomeMismatch?
  }

  lemma {:induction false} SoundScopesValidate(agent: string, scope: string, m: MetricsEvidence)
    requires A.ScopeOk(m)
    ensures !Mismatch(S.Validated(agent, scope, m))
  {
  }

  lemma {:induction false} ToolsRaiseNoMismatch(tools: map<string, S.ToolTotals>, e: AgentEvidence, order: seq<string>)
    requires forall t :: t in order ==> t in e.perTool
    requires forall t :: t in e.perTool ==> A.ScopeOk(e.perTool[t])
    ensures !Mismatch(S.MergeTools(tools, e, order))
  {
    if order != [] {
      var shorter, last := order[..|order| - 1], order[|order| - 1];
      assert order == shorter + [last];
      ToolsRaiseNoMismatch(tools, e, shorter);
      hide A.ScopeOk, S.Validated;
      SoundScopesValidate(e.agentName, last, e.perTool[last]);
    }
  }

  lemma {:induction false} StepRaisesNoMismatch(acc: S.Acc, e: AgentEvidence, x: S.Expect)
    requires A.ScopeOk(e.metrics) && forall t :: t in e.perTool ==> A.ScopeOk(e.perTool[t])
    ensures !Mismatch(S.Step(acc, e, x))
  {
    hide A.ScopeOk, S.Validated, S.MergeTools, S.AddOutcomes, S.AddScenario, T.Prefixed, Ordering.Sorted;
    SoundScopesValidate(e.agentName, "global", e.metrics);
    AddsRaiseNoMismatch(acc.outcomes, e.metrics.outcomes, acc.scenario, e.scenarioOutcome.counts);
    ToolsRaiseNoMismatch(acc.tools, e, Ordering.Sorted(e.perTool.Keys));
  }

  lemma {:induction false} AddsRaiseNoMismatch(
      a: OutcomeCounts, b: OutcomeCounts, c: multiset<ScenarioCounter>, d: multiset<ScenarioCounter>)
    ensures !Mismatch(S.AddOutcomes(a, b)) && !Mismatch(S.AddScenario(c, d))
  {
  }

  lemma {:induction false} LoopRaisesNoMismatch(es: seq<AgentEvidence>, x: S.Expect)
    requires forall e :: e in es ==> A.ScopeOk(e.metrics)
    requires forall e, t :: e in es && t in e.perTool ==> A.ScopeOk(e.perTool[t])
    ensures !Mismatch(S.Loop(es, x))
  {
    if es != [] {
      var shorter, last := es[..|es| - 1], es[|es| - 1];
      assert es == shorter + [last];
      LoopRaisesNoMismatch(shorter, x);
      assert last in es;
      hide A.ScopeOk, S.Step;
      if S.Loop(shorter, x).Ok? {
        StepRaisesNoMismatch(S.Loop(shorter, x).value, last, x);
      }
    }
  }

  lemma {:induction false} SummaryRaisesNoMismatch(tools: map<string, S.ToolTotals>, order: seq<string>)
    requires forall t :: t in order ==> t in tools
    ensures !Mismatch(S.SummarizeTools(tools, order))
  {
    if order != [] {
      SummaryRaisesNoMismatch(tools, order[..|order| - 1]);
    }
  }

  /** Evidence taken from finished recorders never raises the latency/outcome mismatch error. */
  lemma {:induction false} NeverMismatched(es: seq<AgentEvidence>, parts: seq<seq<Call>>)
    requires AllReport(es, parts)
    ensures !Mismatch(S.Aggregate(es))
  {
    forall e | e in es ensures A.ScopeOk(e.metrics) && forall t :: t in e.perTool ==> A.ScopeOk(e.perTool[t]) {
      var i :| 0 <= i < |es| && es[i] == e;
      ReportsAreSound(e, parts[i]);
    }
    hide A.ScopeOk, S.Loop;
    if 0 < |es| < U32_LIMIT {
      var x := S.Expect(|es|, es[0].targetProtocolVersion, es[0].toolInventoryHash);
      LoopRaisesNoMismatch(es, x);
      if S.Loop(es, x).Ok? {
        SummaryRaisesNoMismatch(S.Loop(es, x).value.tools, Ordering.Sorted(S.Loop(es, x).value.tools.Keys));
      }
    }
  }

  /** From threads to the report: every agent's evidence is read from a shared recorder whose
      threads have all finished, whatever the schedule of their atomic steps was. The report then exists
      exactly if the cohort is sound and its totals are reportable, and it is that of one recorder. */
  lemma {:induction false} FromThreadsToReport(
      es: seq<AgentEvidence>, threads: seq<nat>, schedules: seq<seq<Runs.Event>>, parts: seq<seq<Call>>, calls: seq<Call>)
    requires |es| == |threads| == |schedules| == |parts|
    requires forall i :: 0 <= i < |es| ==>
      var s := Runs.Run(Runs.Init(threads[i]), schedules[i]);
      Runs.Quiescent(s) && s.started == parts[i] && Countable(parts[i]) && Reports(es[i], Runs.Observed(s))
    requires multiset(calls) == multiset(Joined(parts))
    ensures AllReport(es, parts) && !Mismatch(S.Aggregate(es))
    ensures S.Aggregate(es).Ok? <==>
      && 0 < |es| < U32_LIMIT
      && A.IdentitiesOk(es, S.Expect(|es|, es[0].targetProtocolVersion, es[0].toolInventoryHash))
      && Reportable(es, parts)
    ensures S.Aggregate(es).Ok? ==>
      && S.Aggregate(es).value.metrics == A.MetricsOf(Summary(calls).overall)
      && S.Aggregate(es).value.perTool == map t | t in Summary(calls).perTool :: A.MetricsOf(Summary(calls).perTool[t])
  {
    hide S.Aggregate, Summary, Reports, A.MetricsOf, Countable, Runs.Run, Runs.Init, Runs.Quiescent, Runs.Observed, Joined,
      A.IdentitiesOk, Reportable;
    forall i | 0 <= i < |es| ensures Countable(parts[i]) && Reports(es[i], Summary(parts[i])) {
      Runs.QuiescentIsExact(threads[i], schedules[i], parts[i]);
    }
    NeverMismatched(es, parts);
    ReportExistsIff(es, parts);
    if S.Aggregate(es).Ok? {
      DistributedEqualsLocal(es, parts, calls);
    }
  }
}
