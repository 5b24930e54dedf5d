/** What a recorder must know after a list of calls, whatever threads or machines made them. */
module RecorderSpec {
  import opened Basics
  import opened Metrics
  import T = Totals

  /** One hour in microseconds: the top of every latency histogram. */
  const MAX_LATENCY_US: nat := 3_600_000_000

  const NUM_SHARDS: nat := 16

  /** One completed call; `tool` is absent for calls recorded into the global aggregate only. */
  datatype Call = Call(tool: Option<string>, micros: nat, outcome: CallOutcome)

  /** A duration too long for 64 bits saturates before it reaches the histogram. */
  function Saturated(micros: nat): u64 {
    if micros < U64_LIMIT then micros else U64_LIMIT - 1
  }

  function Clamped(micros: nat): (v: nat)
    ensures 1 <= v <= MAX_LATENCY_US
    ensures 1 <= micros <= MAX_LATENCY_US ==> v == micros
  {
    if micros < 1 then 1 else if micros > MAX_LATENCY_US then MAX_LATENCY_US else micros
  }

  function SampleOf(call: Call): multiset<nat> {
    if call.outcome.ContributesToLatency() then multiset{Clamped(call.micros)} else multiset{}
  }

  function Sampled(call: Call): Series {
    Series(multiset{call.outcome}, SampleOf(call))
  }

  function ToolPart(call: Call, series: Series): map<string, Series> {
    if call.tool.Some? then map[call.tool.value := series] else map[]
  }

  function OfCall(call: Call): Recording {
    Recording(Sampled(call), ToolPart(call, Sampled(call)))
  }

  function Summary(calls: seq<Call>): Recording {
    if calls == [] then NO_RECORDING else Summary(calls[..|calls| - 1]).Plus(OfCall(calls[|calls| - 1]))
  }

  lemma {:induction false} SummarySnoc(calls: seq<Call>, call: Call)
    ensures Summary(calls + [call]) == Summary(calls).Plus(OfCall(call))
  {
    assert (calls + [call])[..|calls|] == calls;
  }

  /** Two recorders' calls recorded by one recorder are the merge of both. */
  lemma {:induction false} SummaryConcat(a: seq<Call>, b: seq<Call>)
    ensures Summary(a + b) == Summary(a).Plus(Summary(b))
  {
    if b == [] {
      assert a + b == a;
      PlusUnit(Summary(a));
    } else {
      var shorter, last := b[..|b| - 1], b[|b| - 1];
      hide *;
      assert a + b == (a + shorter) + [last] && b == shorter + [last];
      SummarySnoc(a + shorter, last);
      SummarySnoc(shorter, last);
      SummaryConcat(a, shorter);
      PlusAssociates(Summary(a), Summary(shorter), OfCall(last));
    }
  }

  lemma {:induction false} SummaryPullsOut(calls: seq<Call>, i: nat)
    requires i < |calls|
    ensures Summary(calls) == Summary(T.Without(calls, i)).Plus(OfCall(calls[i]))
  {
    var before, after := calls[..i], calls[i + 1..];
    assert calls == before + [calls[i]] + after && T.Without(calls, i) == before + after;
    hide *;
    SummaryConcat(before + [calls[i]], after);
    SummarySnoc(before, calls[i]);
    SummaryConcat(before, after);
    PlusAssociates(Summary(before), OfCall(calls[i]), Summary(after));
    PlusCommutes(OfCall(calls[i]), Summary(after));
    PlusAssociates(Summary(before), Summary(after), OfCall(calls[i]));
  }

  /** The order in which calls are recorded leaves no trace. */
  lemma {:induction false} SummaryIgnoresOrder(a: seq<Call>, b: seq<Call>)
    requires multiset(a) == multiset(b)
    ensures Summary(a) == Summary(b)
  {
    if a == [] {
      assert |b| == |multiset(b)| == |multiset(a)|;
    } else {
      var shorter, last := a[..|a| - 1], a[|a| - 1];
      assert a == shorter + [last];
      hide *;
      var i := T.FindLast(shorter, last, b);
      SummaryIgnoresOrder(shorter, T.Without(b, i));
      SummarySnoc(shorter, last);
      SummaryPullsOut(b, i);
    }
  }

  lemma {:induction false} CallBalanced(call: Call)
    ensures Sampled(call).Balanced()
  {
  }

  /** Every summary has one sample per success, hang and deadlock, overall and per tool. */
  lemma {:induction false} SummaryBalanced(calls: seq<Call>, tool: string)
    ensures Summary(calls).overall.Balanced()
    ensures SeriesOf(Summary(calls).perTool, tool).Balanced()
  {
    if calls != [] {
      var shorter, last := calls[..|calls| - 1], calls[|calls| - 1];
      SummaryBalanced(shorter, tool);
      CallBalanced(last);
      BalancedPlus(Summary(shorter).overall, Sampled(last));
      MergedSeries(Summary(shorter).perTool, OfCall(last).perTool, tool);
      BalancedPlus(SeriesOf(Summary(shorter).perTool, tool), SeriesOf(OfCall(last).perTool, tool));
    }
  }

  /** The counters add up to the number of calls. */
  lemma {:induction false} SummaryCounts(calls: seq<Call>, tool: string)
    ensures |Summary(calls).overall.outcomes| == |calls|
    ensures |SeriesOf(Summary(calls).perTool, tool).outcomes| <= |calls|
  {
    if calls != [] {
      var shorter, last := calls[..|calls| - 1], calls[|calls| - 1];
      SummaryCounts(shorter, tool);
      MergedSeries(Summary(shorter).perTool, OfCall(last).perTool, tool);
    }
  }

  /** A tool has an entry exactly when some call named it. */
  lemma {:induction false} SummaryTools(calls: seq<Call>, tool: string)
    ensures tool in Summary(calls).perTool <==> exists c :: c in calls && c.tool == Some(tool)
  {
    if calls != [] {
      var shorter, last := calls[..|calls| - 1], calls[|calls| - 1];
      assert calls == shorter + [last];
      SummaryTools(shorter, tool);
      if tool in Summary(shorter).perTool {
        var c :| c in shorter && c.tool == Some(tool);
        assert c in calls;
      }
      assert last in calls;
    }
  }

  // ----- what a summary says of the calls

  function OutcomesOf(calls: seq<Call>): seq<CallOutcome> {
    seq(|calls|, i requires 0 <= i < |calls| => calls[i].outcome)
  }

  /** The times that count: those of successes, hangs and deadlocks, at least a microsecond and at most an hour. */
  function TimesOf(calls: seq<Call>): seq<nat> {
    if calls == [] then []
    else
      var call := calls[|calls| - 1];
      var time := if call.micros == 0 then 1 else if call.micros > 3_600_000_000 then 3_600_000_000 else call.micros;
      TimesOf(calls[..|calls| - 1]) + if call.outcome in {Success, Hang, Deadlock} then [time] else []
  }

  /** The calls that named this tool. */
  function Naming(calls: seq<Call>, tool: string): seq<Call> {
    if calls == [] then []
    else
      var call := calls[|calls| - 1];
      Naming(calls[..|calls| - 1], tool) + if call.tool == Some(tool) then [call] else []
  }

  lemma {:induction false} OneOutcome(calls: seq<Call>, call: Call)
    ensures multiset(OutcomesOf(calls + [call])) == multiset(OutcomesOf(calls)) + OfCall(call).overall.outcomes
  {
    assert OutcomesOf(calls + [call]) == OutcomesOf(calls) + [call.outcome];
  }

  lemma {:induction false} OneTime(calls: seq<Call>, call: Call)
    ensures multiset(TimesOf(calls + [call])) == multiset(TimesOf(calls)) + OfCall(call).overall.samples
  {
    assert (calls + [call])[..|calls|] == calls;
  }

  lemma {:induction false} OverallMeans(calls: seq<Call>)
    ensures Summary(calls).overall == Series(multiset(OutcomesOf(calls)), multiset(TimesOf(calls)))
  {
    if calls == [] {
      assert OutcomesOf([]) == [];
    } else {
      var shorter, call := calls[..|calls| - 1], calls[|calls| - 1];
      assert calls == shorter + [call];
      OverallMeans(shorter);
      hide TimesOf, OutcomesOf, OfCall, MergeTools;
      OneOutcome(shorter, call);
      OneTime(shorter, call);
    }
  }

  lemma {:induction false} CallNames(call: Call, tool: string)
    ensures SeriesOf(OfCall(call).perTool, tool) == if call.tool == Some(tool) then OfCall(call).overall else NO_SERIES
  {
  }

  lemma {:induction false} NamingSnoc(calls: seq<Call>, call: Call, tool: string)
    ensures Naming(calls + [call], tool) == if call.tool == Some(tool) then Naming(calls, tool) + [call] else Naming(calls, tool)
  {
    assert (calls + [call])[..|calls|] == calls;
  }

  lemma {:induction false} PlusParts(a: Recording, b: Recording, tool: string)
    ensures a.Plus(b).overall == a.overall.Plus(b.overall)
    ensures SeriesOf(a.Plus(b).perTool, tool) == SeriesOf(a.perTool, tool).Plus(SeriesOf(b.perTool, tool))
    ensures SeriesOf(a.perTool, tool).Plus(NO_SERIES) == SeriesOf(a.perTool, tool)
  {
    MergedSeries(a.perTool, b.perTool, tool);
  }

  /** The series of a tool is the overall series of the calls that named it. */
  lemma {:induction false} ToolMeans(calls: seq<Call>, tool: string)
    ensures SeriesOf(Summary(calls).perTool, tool) == Summary(Naming(calls, tool)).overall
  {
    if calls != [] {
      hide *;
      var shorter, call := calls[..|calls| - 1], calls[|calls| - 1];
      assert calls == shorter + [call];
      ToolMeans(shorter, tool);
      SummarySnoc(shorter, call);
      NamingSnoc(shorter, call, tool);
      SummarySnoc(Naming(shorter, tool), call);
      CallNames(call, tool);
      PlusParts(Summary(shorter), OfCall(call), tool);
      PlusParts(Summary(Naming(shorter, tool)), OfCall(call), tool);
    }
  }

  /** A summary counts every call under its outcome, holds the times that count, and gives each tool the
      same of the calls that named it. */
  lemma {:induction false} SummaryMeans(calls: seq<Call>, tool: string)
    ensures Summary(calls).overall == Series(multiset(OutcomesOf(calls)), multiset(TimesOf(calls)))
    ensures SeriesOf(Summary(calls).perTool, tool) ==
      Series(multiset(OutcomesOf(Naming(calls, tool))), multiset(TimesOf(Naming(calls, tool))))
  {
    hide *;
    OverallMeans(calls);
    ToolMeans(calls, tool);
    OverallMeans(Naming(calls, tool));
  }
}
