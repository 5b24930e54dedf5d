/** Per-call outcomes and the latency series that every layer records, merges and reports. */
module Metrics {
  import opened Basics

  datatype CallOutcome =
    | Success | Hang | Deadlock | Timeout | ServerError | ProtocolError
    | Crash | Malformed | Disconnected | Cancelled | ExpectedRejection
  {
    /** Only these outcomes carry a meaningful duration. */
    predicate ContributesToLatency() {
      Success? || Hang? || Deadlock?
    }
  }

  /** The struct of eleven counters, one per outcome, read as a multiset: `counts[o]` is
      the counter of outcome `o`, and adding two structs field by field is multiset sum. */
  type OutcomeCounts = multiset<CallOutcome>

  /** Every counter fits the `u64` that holds it. */
  ghost predicate Fits(counts: OutcomeCounts) {
    forall o :: counts[o] < U64_LIMIT
  }

  type WireOutcomes = c: OutcomeCounts | Fits(c) witness multiset{}

  /** Success, hang and deadlock: the outcomes that own one histogram sample each. */
  function LatencyBearing(counts: OutcomeCounts): nat {
    counts[Success] + counts[Hang] + counts[Deadlock]
  }

  /** The counters and the latency samples of one scope (the whole run, or one tool). */
  datatype Series = Series(outcomes: OutcomeCounts, samples: multiset<nat>) {
    function Plus(that: Series): Series {
      Series(outcomes + that.outcomes, samples + that.samples)
    }

    /** Every latency-bearing call left exactly one sample. */
    predicate Balanced() {
      |samples| == LatencyBearing(outcomes)
    }
  }

  lemma {:induction false} BalancedPlus(a: Series, b: Series)
    requires a.Balanced() && b.Balanced()
    ensures a.Plus(b).Balanced()
  {
  }

  const NO_SERIES := Series(multiset{}, multiset{})

  /** Everything one recorder knows: the global series and one series per tool. */
  datatype Recording = Recording(overall: Series, perTool: map<string, Series>) {
    function Plus(that: Recording): Recording {
      Recording(overall.Plus(that.overall), MergeTools(perTool, that.perTool))
    }
  }

  const NO_RECORDING := Recording(NO_SERIES, map[])

  function SeriesOf(tools: map<string, Series>, tool: string): Series {
    if tool in tools then tools[tool] else NO_SERIES
  }

  function MergeTools(a: map<string, Series>, b: map<string, Series>): (m: map<string, Series>)
    ensures m.Keys == a.Keys + b.Keys
  {
    map t | t in a.Keys + b.Keys :: SeriesOf(a, t).Plus(SeriesOf(b, t))
  }

  lemma {:induction false} MergedSeries(a: map<string, Series>, b: map<string, Series>, t: string)
    ensures SeriesOf(MergeTools(a, b), t) == SeriesOf(a, t).Plus(SeriesOf(b, t))
  {
    if t !in a && t !in b {
      assert NO_SERIES.Plus(NO_SERIES) == NO_SERIES;
    }
  }

  /** Two tool maps agree when they have the same tools and the same series for each. */
  lemma {:induction false} SameTools(a: map<string, Series>, b: map<string, Series>)
    requires a.Keys == b.Keys
    requires forall t :: t in a ==> SeriesOf(a, t) == SeriesOf(b, t)
    ensures a == b
  {
    forall t | t in a ensures a[t] == b[t] {
      assert SeriesOf(a, t) == SeriesOf(b, t);
    }
  }

  lemma {:induction false} SeriesCommute(a: Series, b: Series)
    ensures a.Plus(b) == b.Plus(a)
  {
  }

  lemma {:induction false} SeriesAssociate(a: Series, b: Series, c: Series)
    ensures a.Plus(b).Plus(c) == a.Plus(b.Plus(c))
  {
  }

  lemma {:induction false} ToolsCommute(a: map<string, Series>, b: map<string, Series>)
    ensures MergeTools(a, b) == MergeTools(b, a)
  {
    forall t | t in a || t in b
      ensures SeriesOf(a, t).Plus(SeriesOf(b, t)) == SeriesOf(b, t).Plus(SeriesOf(a, t))
    {
      SeriesCommute(SeriesOf(a, t), SeriesOf(b, t));
    }
  }

  lemma {:induction false} ToolsAssociateAt(a: map<string, Series>, b: map<string, Series>, c: map<string, Series>,
        t: string)
    ensures SeriesOf(MergeTools(MergeTools(a, b), c), t) == SeriesOf(MergeTools(a, MergeTools(b, c)), t)
  {
    MergedSeries(a, b, t);
    MergedSeries(b, c, t);
    MergedSeries(MergeTools(a, b), c, t);
    MergedSeries(a, MergeTools(b, c), t);
    SeriesAssociate(SeriesOf(a, t), SeriesOf(b, t), SeriesOf(c, t));
  }

  lemma {:induction false} ToolsAssociate(a: map<string, Series>, b: map<string, Series>, c: map<string, Series>)
    ensures MergeTools(MergeTools(a, b), c) == MergeTools(a, MergeTools(b, c))
  {
    var l, r := MergeTools(MergeTools(a, b), c), MergeTools(a, MergeTools(b, c));
    assert l.Keys == r.Keys;
    hide *;
    forall t | t in l ensures SeriesOf(l, t) == SeriesOf(r, t) {
      ToolsAssociateAt(a, b, c, t);
    }
    SameTools(l, r);
  }

  lemma {:induction false} ToolsUnit(a: map<string, Series>)
    ensures MergeTools(a, map[]) == a
  {
    forall t | t in a ensures SeriesOf(a, t).Plus(NO_SERIES) == a[t] {
    }
  }

  /** Merging recordings is commutative and associative, with the empty recording as unit. */
  lemma {:induction false} PlusCommutes(a: Recording, b: Recording)
    ensures a.Plus(b) == b.Plus(a)
  {
    SeriesCommute(a.overall, b.overall);
    ToolsCommute(a.perTool, b.perTool);
  }

  lemma {:induction false} PlusAssociates(a: Recording, b: Recording, c: Recording)
    ensures a.Plus(b).Plus(c) == a.Plus(b.Plus(c))
  {
    SeriesAssociate(a.overall, b.overall, c.overall);
    ToolsAssociate(a.perTool, b.perTool, c.perTool);
  }

  lemma {:induction false} PlusUnit(a: Recording)
    ensures a.Plus(NO_RECORDING) == a && NO_RECORDING.Plus(a) == a
  {
    ToolsUnit(a.perTool);
    PlusCommutes(a, NO_RECORDING);
  }
}
