/** What each field of the merged report is, in terms of the evidence alone. */
module AggregateReport {
  import opened Basics
  import opened Ordering
  import opened Metrics
  import opened Protocol
  import opened AggregateSpec
  import A = AggregateMeaning
  import T = Totals

  // ----- sums over the cohort

  function CallsOf(es: seq<AgentEvidence>, o: CallOutcome): nat {
    if es == [] then 0 else CallsOf(es[..|es| - 1], o) + es[|es| - 1].metrics.outcomes[o]
  }

  function AllCalls(es: seq<AgentEvidence>): nat {
    if es == [] then 0 else AllCalls(es[..|es| - 1]) + |es[|es| - 1].metrics.outcomes|
  }

  /** How often a latency was measured. */
  function SamplesOf(es: seq<AgentEvidence>, v: nat): nat {
    if es == [] then 0
    else
      var latency := es[|es| - 1].metrics.latency;
      SamplesOf(es[..|es| - 1], v) + if latency.payload.Some? then latency.payload.value.samples[v] else 0
  }

  function ToolCallsOf(es: seq<AgentEvidence>, t: string, o: CallOutcome): nat {
    if es == [] then 0
    else
      var e := es[|es| - 1];
      ToolCallsOf(es[..|es| - 1], t, o) + if t in e.perTool then e.perTool[t].outcomes[o] else 0
  }

  function AllToolCalls(es: seq<AgentEvidence>, t: string): nat {
    if es == [] then 0
    else
      var e := es[|es| - 1];
      AllToolCalls(es[..|es| - 1], t) + if t in e.perTool then |e.perTool[t].outcomes| else 0
  }

  function ToolSamplesOf(es: seq<AgentEvidence>, t: string, v: nat): nat {
    if es == [] then 0
    else
      var e := es[|es| - 1];
      ToolSamplesOf(es[..|es| - 1], t, v)
      + if t in e.perTool && e.perTool[t].latency.payload.Some? then e.perTool[t].latency.payload.value.samples[v] else 0
  }

  function ScenarioOf(es: seq<AgentEvidence>, c: ScenarioCounter): nat {
    if es == [] then 0 else ScenarioOf(es[..|es| - 1], c) + es[|es| - 1].scenarioOutcome.counts[c]
  }

  function SessionsOf(es: seq<AgentEvidence>): nat {
    if es == [] then 0 else SessionsOf(es[..|es| - 1]) + es[|es| - 1].shard.concurrency
  }

  /** Every note, behind the name of its agent. */
  function NotesOf(es: seq<AgentEvidence>): seq<string> {
    if es == [] then []
    else
      var e := es[|es| - 1];
      var notes := e.scenarioOutcome.notes;
      NotesOf(es[..|es| - 1])
      + seq(|notes|, i requires 0 <= i < |notes| => "agent " + e.agentName + ": " + notes[i])
  }

  function HangsOf(es: seq<AgentEvidence>): seq<nat> {
    if es == [] then [] else HangsOf(es[..|es| - 1]) + es[|es| - 1].scenarioOutcome.hungForMs
  }

  // ----- the order-free total, field by field

  lemma {:induction false} FoldCounts(es: seq<AgentEvidence>)
    ensures T.Fold(es).concurrency == SessionsOf(es)
    ensures |T.Fold(es).recording.overall.outcomes| == AllCalls(es)
    ensures forall o :: T.Fold(es).recording.overall.outcomes[o] == CallsOf(es, o)
    ensures forall v :: T.Fold(es).recording.overall.samples[v] == SamplesOf(es, v)
    ensures forall c :: T.Fold(es).scenario[c] == ScenarioOf(es, c)
  {
    if es != [] {
      FoldCounts(es[..|es| - 1]);
      hide Metrics.MergeTools;
    }
  }

  lemma {:induction false} ToolOneMore(es: seq<AgentEvidence>, t: string)
    requires es != []
    ensures SeriesOf(T.Fold(es).recording.perTool, t)
      == SeriesOf(T.Fold(es[..|es| - 1]).recording.perTool, t).Plus(SeriesOf(T.RecordingOf(es[|es| - 1]).perTool, t))
  {
    hide *;
    FoldOneMore(es);
    MergedSeries(T.Fold(es[..|es| - 1]).recording.perTool, T.RecordingOf(es[|es| - 1]).perTool, t);
  }

  lemma {:induction false} FoldToolCounts(es: seq<AgentEvidence>, t: string)
    ensures var tool := SeriesOf(T.Fold(es).recording.perTool, t);
      && |tool.outcomes| == AllToolCalls(es, t)
      && (forall o :: tool.outcomes[o] == ToolCallsOf(es, t, o))
      && (forall v :: tool.samples[v] == ToolSamplesOf(es, t, v))
  {
    if es != [] {
      hide T.Fold, T.RecordingOf, SeriesOf;
      FoldToolCounts(es[..|es| - 1], t);
      ToolOneMore(es, t);
      OneTool(es[|es| - 1], t);
    }
  }

  lemma {:induction false} OneTool(e: AgentEvidence, t: string)
    ensures var tool := SeriesOf(T.RecordingOf(e).perTool, t);
      && |tool.outcomes| == (if t in e.perTool then |e.perTool[t].outcomes| else 0)
      && (forall o :: tool.outcomes[o] == if t in e.perTool then e.perTool[t].outcomes[o] else 0)
      && (forall v :: tool.samples[v] ==
            if t in e.perTool && e.perTool[t].latency.payload.Some? then e.perTool[t].latency.payload.value.samples[v] else 0)
  {
  }

  ghost predicate IsLargest(x: nat, es: seq<AgentEvidence>, f: AgentEvidence -> nat) {
    (exists e :: e in es && f(e) == x) && forall e :: e in es ==> f(e) <= x
  }

  ghost predicate IsSmallest(x: nat, es: seq<AgentEvidence>, f: AgentEvidence -> nat) {
    (exists e :: e in es && f(e) == x) && forall e :: e in es ==> x <= f(e)
  }

  function Elapsed(e: AgentEvidence): nat {
    e.measurementElapsedMs
  }

  function Delay(e: AgentEvidence): nat {
    e.startDelayMs
  }

  lemma {:induction false} LargestSnoc(x: nat, es: seq<AgentEvidence>, last: AgentEvidence, f: AgentEvidence -> nat)
    requires IsLargest(x, es, f)
    ensures IsLargest(if f(last) <= x then x else f(last), es + [last], f)
  {
    assert forall e :: e in es + [last] <==> e in es || e == last;
    var e :| e in es && f(e) == x;
    assert e in es + [last] && last in es + [last];
  }

  lemma {:induction false} SmallestSnoc(x: nat, es: seq<AgentEvidence>, last: AgentEvidence, f: AgentEvidence -> nat)
    requires IsSmallest(x, es, f)
    ensures IsSmallest(if x <= f(last) then x else f(last), es + [last], f)
  {
    assert forall e :: e in es + [last] <==> e in es || e == last;
    var e :| e in es && f(e) == x;
    assert e in es + [last] && last in es + [last];
  }

  /** One more agent: the larger or the smaller of two times. */
  lemma {:induction false} FoldOneMore(es: seq<AgentEvidence>)
    requires es != []
    ensures var t, u, e := T.Fold(es[..|es| - 1]), T.Fold(es), es[|es| - 1];
      && u.elapsed == (if Elapsed(e) <= t.elapsed then t.elapsed else Elapsed(e))
      && u.latest == (if Delay(e) <= t.latest then t.latest else Delay(e))
      && u.earliest == (if t.earliest <= Delay(e) then t.earliest else Delay(e))
      && u.recording.perTool == Metrics.MergeTools(t.recording.perTool, T.RecordingOf(e).perTool)
  {
    hide Metrics.MergeTools, T.RecordingOf, T.Prefixed;
  }

  lemma {:induction false} NothingYet()
    ensures T.Fold([]).elapsed == 0 && T.Fold([]).latest == 0 && T.Fold([]).earliest == U64_LIMIT - 1
  {
  }

  lemma {:induction false} Alone(e: AgentEvidence, f: AgentEvidence -> nat)
    ensures IsLargest(f(e), [e], f) && IsSmallest(f(e), [e], f)
  {
    assert e in [e];
  }

  lemma {:induction false} FoldOne(e: AgentEvidence)
    ensures IsLargest(T.Fold([e]).elapsed, [e], Elapsed)
    ensures IsLargest(T.Fold([e]).latest, [e], Delay) && IsSmallest(T.Fold([e]).earliest, [e], Delay)
  {
    hide T.Fold, IsLargest, IsSmallest;
    FoldOneMore([e]);
    NothingYet();
    assert [e][..0] == [];
    Alone(e, Elapsed);
    Alone(e, Delay);
  }

  lemma {:induction false} FoldTimes(es: seq<AgentEvidence>)
    requires es != []
    ensures IsLargest(T.Fold(es).elapsed, es, Elapsed)
    ensures IsLargest(T.Fold(es).latest, es, Delay) && IsSmallest(T.Fold(es).earliest, es, Delay)
  {
    if |es| == 1 {
      assert es == [es[0]];
      FoldOne(es[0]);
    } else {
      hide *;
      var shorter, last := es[..|es| - 1], es[|es| - 1];
      assert es == shorter + [last];
      FoldTimes(shorter);
      FoldOneMore(es);
      LargestSnoc(T.Fold(shorter).elapsed, shorter, last, Elapsed);
      LargestSnoc(T.Fold(shorter).latest, shorter, last, Delay);
      SmallestSnoc(T.Fold(shorter).earliest, shorter, last, Delay);
    }
  }

  lemma {:induction false} PrefixedNotes(agent: string, notes: seq<string>)
    ensures T.Prefixed(agent, notes) == seq(|notes|, i requires 0 <= i < |notes| => "agent " + agent + ": " + notes[i])
  {
    if notes != [] {
      PrefixedNotes(agent, notes[..|notes| - 1]);
    }
  }

  /** The loop appends the notes and hang durations of one agent after the other. */
  lemma {:induction false} LoopLists(es: seq<AgentEvidence>, x: Expect)
    requires Loop(es, x).Ok?
    ensures Loop(es, x).value.notes == NotesOf(es) && Loop(es, x).value.hung == HangsOf(es)
  {
    if es != [] {
      LoopLists(es[..|es| - 1], x);
      var e := es[|es| - 1];
      PrefixedNotes(e.agentName, e.scenarioOutcome.notes);
      StepLists(Loop(es[..|es| - 1], x).value, e, x);
      hide Step;
    }
  }

  lemma {:induction false} StepLists(acc: Acc, e: AgentEvidence, x: Expect)
    requires Step(acc, e, x).Ok?
    ensures Step(acc, e, x).value.notes == acc.notes + T.Prefixed(e.agentName, e.scenarioOutcome.notes)
    ensures Step(acc, e, x).value.hung == acc.hung + e.scenarioOutcome.hungForMs
  {
    hide IdentityProblem, Validated, MergeHistogram, AddOutcomes, AddScenario, AggregateSpec.MergeTools, T.Prefixed, Sorted;
  }

  // ----- the report

  /** The numbers of the whole run. */
  lemma {:induction false} ReportNumbers(es: seq<AgentEvidence>)
    requires Aggregate(es).Ok?
    ensures var r := Aggregate(es).value;
      && r.globalConcurrency == SessionsOf(es)
      && r.metrics.totalRequests == AllCalls(es)
      && r.metrics.successfulRequests == CallsOf(es, Success) + CallsOf(es, ExpectedRejection)
      && (forall o :: r.metrics.outcomes[o] == CallsOf(es, o))
      && (forall v :: r.metrics.samples[v] == SamplesOf(es, v))
      && (forall c :: r.scenario[c] == ScenarioOf(es, c))
  {
    A.AggregateIff(es);
    FoldCounts(es);
    hide Aggregate, A.Acceptable, T.Fold, Sorted, A.Names;
    assert A.OutlineOf(Aggregate(es).value) == A.Expected(es);
  }

  /** The same for each tool that some agent reported. */
  lemma {:induction false} ReportTools(es: seq<AgentEvidence>, t: string)
    requires Aggregate(es).Ok?
    ensures var r := Aggregate(es).value;
      && (t in r.perTool <==> exists e :: e in es && t in e.perTool)
      && (t in r.perTool ==>
            && r.perTool[t].totalRequests == AllToolCalls(es, t)
            && r.perTool[t].successfulRequests == ToolCallsOf(es, t, Success) + ToolCallsOf(es, t, ExpectedRejection)
            && (forall o :: r.perTool[t].outcomes[o] == ToolCallsOf(es, t, o))
            && (forall v :: r.perTool[t].samples[v] == ToolSamplesOf(es, t, v)))
  {
    A.AggregateIff(es);
    FoldToolCounts(es, t);
    A.FoldTools(es, t);
    hide Aggregate, A.Acceptable, T.Fold, Sorted, A.Names;
    assert A.OutlineOf(Aggregate(es).value).perTool == A.Expected(es).perTool;
  }

  /** The longest measurement, and the largest difference between two start delays. */
  lemma {:induction false} ReportTimes(es: seq<AgentEvidence>)
    requires Aggregate(es).Ok?
    ensures var r := Aggregate(es).value;
      && (exists e :: e in es && e.measurementElapsedMs == r.measurementElapsedMs)
      && (forall e :: e in es ==> e.measurementElapsedMs <= r.measurementElapsedMs)
      && (exists e, f :: e in es && f in es && r.startSkewMs == e.startDelayMs - f.startDelayMs)
      && (forall e, f :: e in es && f in es ==> e.startDelayMs - f.startDelayMs <= r.startSkewMs)
  {
    A.AggregateIff(es);
    FoldTimes(es);
    hide Aggregate, A.Acceptable, T.Fold, Sorted, A.Names, A.MetricsOf;
    var r := Aggregate(es).value;
    assert A.OutlineOf(r) == A.Expected(es);
    var e :| e in es && Elapsed(e) == T.Fold(es).elapsed;
    assert e.measurementElapsedMs == r.measurementElapsedMs;
    var late :| late in es && Delay(late) == T.Fold(es).latest;
    var early :| early in es && Delay(early) == T.Fold(es).earliest;
    assert Delay(early) <= Delay(late);
    assert r.startSkewMs == late.startDelayMs - early.startDelayMs;
    forall x, y | x in es && y in es ensures x.startDelayMs - y.startDelayMs <= r.startSkewMs {
      assert Delay(x) <= T.Fold(es).latest && T.Fold(es).earliest <= Delay(y);
    }
    forall x | x in es ensures x.measurementElapsedMs <= r.measurementElapsedMs {
      assert Elapsed(x) <= T.Fold(es).elapsed;
    }
  }

  /** Names in ascending order, notes and hangs in the order of the evidence, and what everyone agrees on. */
  lemma {:induction false} ReportLists(es: seq<AgentEvidence>)
    requires Aggregate(es).Ok?
    ensures var r := Aggregate(es).value;
      && Ascending(r.agentNames) && |r.agentNames| == |es|
      && (forall n :: n in r.agentNames <==> exists e :: e in es && e.agentName == n)
      && r.notes == NotesOf(es) && r.hung == HangsOf(es)
      && (forall e :: e in es ==> e.targetProtocolVersion == r.protocolVersion && e.toolInventoryHash == r.inventoryHash)
  {
    A.AggregateIff(es);
    var r := Aggregate(es).value;
    var x := Expect(|es|, es[0].targetProtocolVersion, es[0].toolInventoryHash);
    LoopLists(es, x);
    ConcludeLists(Loop(es, x).value, x);
    assert A.IdentitiesOk(es, x);
    hide Conclude, Loop, T.Fold, A.MetricsOf, A.Concludable, A.GlobalOk, A.ToolsOk, A.ScenarioFits;
    assert A.OutlineOf(r) == A.Expected(es);
    forall n ensures n in r.agentNames <==> exists e :: e in es && e.agentName == n {
      assert n in r.agentNames <==> n in A.Names(es);
    }
    forall e | e in es ensures e.targetProtocolVersion == r.protocolVersion && e.toolInventoryHash == r.inventoryHash {
      assert A.HeaderOk(e, x);
    }
  }

  lemma {:induction false} ConcludeLists(acc: Acc, x: Expect)
    requires Conclude(acc, x).Ok?
    ensures Conclude(acc, x).value.notes == acc.notes && Conclude(acc, x).value.hung == acc.hung
    ensures Conclude(acc, x).value.protocolVersion == x.protocolVersion
    ensures Conclude(acc, x).value.inventoryHash == x.inventoryHash
  {
    hide OutcomeTotal, Summarize, SummarizeTools, Sorted;
  }
}
