/** The order-free content of a cohort's evidence: what merging it must amount to. */
module Totals {
  import opened Basics
  import opened Metrics
  import opened Protocol

  datatype Totals = Totals(
    concurrency: nat, recording: Recording, scenario: multiset<ScenarioCounter>,
    notes: multiset<string>, hung: multiset<nat>, elapsed: nat, earliest: nat, latest: nat)
  {
    function Plus(that: Totals): Totals {
      Totals(concurrency + that.concurrency, recording.Plus(that.recording), scenario + that.scenario,
        notes + that.notes, hung + that.hung, Max(elapsed, that.elapsed),
        Min(earliest, that.earliest), Max(latest, that.latest))
    }
  }

  function Max(a: nat, b: nat): nat {
    if a < b then b else a
  }

  function Min(a: nat, b: nat): nat {
    if a < b then a else b
  }

  /** Before any agent: the smallest start delay starts at `u64::MAX`. */
  const NOTHING := Totals(0, NO_RECORDING, multiset{}, multiset{}, multiset{}, 0, U64_LIMIT - 1, 0)

  /** The samples the payload decodes to; nothing when it does not decode. */
  function SeriesOfEvidence(m: MetricsEvidence): Series {
    Series(m.outcomes, if m.latency.payload.Some? then m.latency.payload.value.samples else multiset{})
  }

  function RecordingOf(e: AgentEvidence): Recording {
    Recording(SeriesOfEvidence(e.metrics), map t | t in e.perTool :: SeriesOfEvidence(e.perTool[t]))
  }

  function Prefixed(agent: string, notes: seq<string>): seq<string> {
    if notes == [] then []
    else Prefixed(agent, notes[..|notes| - 1]) + ["agent " + agent + ": " + notes[|notes| - 1]]
  }

  function Of(e: AgentEvidence): Totals {
    Totals(e.shard.concurrency, RecordingOf(e), e.scenarioOutcome.counts,
      multiset(Prefixed(e.agentName, e.scenarioOutcome.notes)), multiset(e.scenarioOutcome.hungForMs),
      e.measurementElapsedMs, e.startDelayMs, e.startDelayMs)
  }

  function Fold(es: seq<AgentEvidence>): Totals {
    if es == [] then NOTHING else Fold(es[..|es| - 1]).Plus(Of(es[|es| - 1]))
  }

  lemma {:induction false} SwapLast(t: Totals, a: Totals, b: Totals)
    ensures t.Plus(a).Plus(b) == t.Plus(b).Plus(a)
  {
    PlusAssociates(t.recording, a.recording, b.recording);
    PlusAssociates(t.recording, b.recording, a.recording);
    PlusCommutes(a.recording, b.recording);
  }

  function Without<X>(s: seq<X>, i: nat): seq<X>
    requires i < |s|
  {
    s[..i] + s[i + 1..]
  }

  /** Taking one element out of the middle and adding it last changes nothing. */
  lemma {:induction false} FoldPullsOut(es: seq<AgentEvidence>, i: nat)
    requires i < |es|
    ensures Fold(es) == Fold(Without(es, i)).Plus(Of(es[i]))
  {
    hide Totals.Plus, Of;
    var n := |es| - 1;
    if i == n {
      assert Without(es, i) == es[..n];
    } else {
      FoldPullsOut(es[..n], i);
      var without := Without(es, i);
      assert without[..|without| - 1] == Without(es[..n], i);
      assert without[|without| - 1] == es[n];
      SwapLast(Fold(without[..|without| - 1]), Of(es[i]), Of(es[n]));
    }
  }

  lemma {:induction false} WithoutContents<X>(s: seq<X>, i: nat)
    requires i < |s|
    ensures multiset(s) == multiset(Without(s, i)) + multiset{s[i]}
  {
    assert s == s[..i] + [s[i]] + s[i + 1..];
  }

  /** A permutation of a list that ends in `last` has `last` somewhere, with the rest around it. */
  lemma {:induction false} FindLast<X>(shorter: seq<X>, last: X, t: seq<X>) returns (i: nat)
    requires multiset(shorter + [last]) == multiset(t)
    ensures i < |t| && t[i] == last && multiset(shorter) == multiset(Without(t, i))
  {
    assert last in multiset(t);
    i :| 0 <= i < |t| && t[i] == last;
    WithoutContents(t, i);
    assert multiset(shorter) == multiset(t) - multiset{last};
  }

  /** The total of a cohort does not depend on the order its evidence arrives in. */
  lemma {:induction false} FoldPermutes(es: seq<AgentEvidence>, fs: seq<AgentEvidence>)
    requires multiset(es) == multiset(fs)
    ensures Fold(es) == Fold(fs)
  {
    hide Totals.Plus, Of;
    if es == [] {
      assert |fs| == |multiset(fs)| == |multiset(es)|;
    } else {
      var n := |es| - 1;
      assert es == es[..n] + [es[n]];
      var i := FindLast(es[..n], es[n], fs);
      FoldPermutes(es[..n], Without(fs, i));
      FoldPullsOut(fs, i);
    }
  }
}
