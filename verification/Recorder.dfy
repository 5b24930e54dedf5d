/** The recorder as one thread sees it: counters, sharded histograms and the per-tool map. */
module Recorder {
  import opened Basics
  import opened Metrics
  import opened RecorderSpec

  /** One counter per outcome. */
  class OutcomeCounters {
    var success: nat
    var hang: nat
    var deadlock: nat
    var timeout: nat
    var serverError: nat
    var protocolError: nat
    var crash: nat
    var malformed: nat
    var disconnected: nat
    var cancelled: nat
    var expectedRejection: nat

    /** The value of the counter that belongs to an outcome. */
    function Of(o: CallOutcome): nat
      reads this
    {
      match o
      case Success => success
      case Hang => hang
      case Deadlock => deadlock
      case Timeout => timeout
      case ServerError => serverError
      case ProtocolError => protocolError
      case Crash => crash
      case Malformed => malformed
      case Disconnected => disconnected
      case Cancelled => cancelled
      case ExpectedRejection => expectedRejection
    }

    function Counts(): (counts: OutcomeCounts)
      reads this
      ensures counts[Success] == success && counts[Hang] == hang && counts[Deadlock] == deadlock
      ensures counts[Timeout] == timeout && counts[ServerError] == serverError && counts[ProtocolError] == protocolError
      ensures counts[Crash] == crash && counts[Malformed] == malformed && counts[Disconnected] == disconnected
      ensures counts[Cancelled] == cancelled && counts[ExpectedRejection] == expectedRejection
    {
      multiset{}[Success := success][Hang := hang][Deadlock := deadlock][Timeout := timeout]
        [ServerError := serverError][ProtocolError := protocolError][Crash := crash][Malformed := malformed]
        [Disconnected := disconnected][Cancelled := cancelled][ExpectedRejection := expectedRejection]
    }

    /** Every outcome has its own counter. */
    lemma {:induction false} CountsAt(o: CallOutcome)
      ensures Counts()[o] == Of(o)
    {
    }

    constructor ()
      ensures Counts() == multiset{}
    {
      success, hang, deadlock, timeout, serverError, protocolError := 0, 0, 0, 0, 0, 0;
      crash, malformed, disconnected, cancelled, expectedRejection := 0, 0, 0, 0, 0;
      new;
      hide OutcomeCounters.Counts;
      forall o ensures Counts()[o] == 0 {
        CountsAt(o);
      }
    }

    method Bump(outcome: CallOutcome)
      modifies this
      ensures Counts() == old(Counts()) + multiset{outcome}
    {
      hide OutcomeCounters.Counts, OutcomeCounters.Of;
      forall o ensures Counts()[o] == Of(o) {
        CountsAt(o);
      }
      Increment(outcome);
      forall o ensures Counts()[o] == Of(o) {
        CountsAt(o);
      }
      SameCounts(Counts(), old(Counts()) + multiset{outcome});
    }

    /** Add one to the counter of the outcome, and to no other. */
    method Increment(outcome: CallOutcome)
      modifies this
      ensures forall o :: Of(o) == old(Of(o)) + if o == outcome then 1 else 0
    {
      match outcome
      case Success => success := success + 1;
      case Hang => hang := hang + 1;
      case Deadlock => deadlock := deadlock + 1;
      case Timeout => timeout := timeout + 1;
      case ServerError => serverError := serverError + 1;
      case ProtocolError => protocolError := protocolError + 1;
      case Crash => crash := crash + 1;
      case Malformed => malformed := malformed + 1;
      case Disconnected => disconnected := disconnected + 1;
      case Cancelled => cancelled := cancelled + 1;
      case ExpectedRejection => expectedRejection := expectedRejection + 1;
    }

    /** Sum of all counters: the number of calls recorded. */
    method Total() returns (total: nat)
      ensures total == |Counts()|
    {
      total := success + hang + deadlock + timeout + serverError + protocolError + crash + malformed
        + disconnected + cancelled + expectedRejection;
    }
  }

  lemma {:induction false} SameCounts(a: OutcomeCounts, b: OutcomeCounts)
    requires forall o :: a[o] == b[o]
    ensures a == b
  {
  }

  /** All samples of a list of shards. */
  function Union(shards: seq<multiset<nat>>): multiset<nat> {
    if shards == [] then multiset{} else Union(shards[..|shards| - 1]) + shards[|shards| - 1]
  }

  /** A sample added to one shard is added once to the whole. */
  lemma {:induction false} UnionGains(shards: seq<multiset<nat>>, i: nat, v: nat)
    requires i < |shards|
    ensures Union(shards[i := shards[i] + multiset{v}]) == Union(shards) + multiset{v}
  {
    var n := |shards| - 1;
    var grown := shards[i := shards[i] + multiset{v}];
    if i == n {
      assert grown[..n] == shards[..n];
    } else {
      assert grown[..n] == shards[..n][i := shards[..n][i] + multiset{v}];
      UnionGains(shards[..n], i, v);
    }
  }

  lemma {:induction false} UnionEmpty(shards: seq<multiset<nat>>)
    requires forall i :: 0 <= i < |shards| ==> shards[i] == multiset{}
    ensures Union(shards) == multiset{}
  {
    if shards != [] {
      UnionEmpty(shards[..|shards| - 1]);
    }
  }

  class ShardedHistogram {
    const shards: array<multiset<nat>>

    ghost predicate Valid() {
      shards.Length == NUM_SHARDS
    }

    function Samples(): multiset<nat>
      reads shards
    {
      Union(shards[..])
    }

    constructor ()
      ensures Valid() && fresh(shards) && Samples() == multiset{}
    {
      shards := new multiset<nat>[NUM_SHARDS](_ => multiset{});
      new;
      UnionEmpty(shards[..]);
    }

    /** `shard` is whatever index the hash of the current thread selects. */
    method Record(value: u64, shard: nat)
      requires Valid() && shard < NUM_SHARDS
      modifies shards
      ensures Samples() == old(Samples()) + multiset{Clamped(value)}
    {
      ghost var before := shards[..];
      shards[shard] := shards[shard] + multiset{Clamped(value)};
      assert shards[..] == before[shard := before[shard] + multiset{Clamped(value)}];
      UnionGains(before, shard, Clamped(value));
    }

    method Merged() returns (merged: multiset<nat>)
      requires Valid()
      ensures merged == Samples()
    {
      merged := multiset{};
      for i := 0 to NUM_SHARDS
        invariant merged == Union(shards[..i])
      {
        assert shards[..i + 1][..i] == shards[..i];
        merged := merged + shards[i];
      }
      assert shards[..NUM_SHARDS] == shards[..];
    }
  }

  /** One outcome-counter set with its histogram: the global aggregate, or the state of one tool. */
  class SeriesState {
    const outcomes: OutcomeCounters
    const latency: ShardedHistogram

    ghost predicate Valid() {
      latency.Valid()
    }

    ghost function Cells(): set<object> {
      {outcomes, latency.shards}
    }

    ghost function View(): Series
      reads Cells()
    {
      Series(outcomes.Counts(), latency.Samples())
    }

    constructor ()
      ensures Valid() && fresh(Cells()) && View() == NO_SERIES
    {
      outcomes := new OutcomeCounters();
      latency := new ShardedHistogram();
    }

    method Observe(micros: nat, outcome: CallOutcome, shard: nat)
      requires Valid() && shard < NUM_SHARDS
      modifies Cells()
      ensures View() == old(View()).Plus(Sampled(Call(None, micros, outcome)))
    {
      hide OutcomeCounters.Counts, ShardedHistogram.Samples;
      outcomes.Bump(outcome);
      if outcome.ContributesToLatency() {
        assert Clamped(Saturated(micros)) == Clamped(micros);
        latency.Record(Saturated(micros), shard);
      }
    }
  }

  class Recorder {
    const overall: SeriesState
    var perTool: map<string, SeriesState>
    /** Every counter set and histogram of this recorder. */
    ghost var cells: set<object>

    /** No two scopes share a counter set or a histogram. */
    ghost predicate Valid()
      reads this
    {
      && this !in cells
      && overall.Valid() && overall.Cells() <= cells
      && (forall t :: t in perTool ==> perTool[t].Valid() && perTool[t].Cells() <= cells)
      && (forall t :: t in perTool ==> perTool[t].Cells() !! overall.Cells())
      && (forall t, u :: t in perTool && u in perTool && t != u ==> perTool[t].Cells() !! perTool[u].Cells())
    }

    ghost function View(): Recording
      requires Valid()
      reads this, cells
    {
      Recording(overall.View(), map t | t in perTool :: perTool[t].View())
    }

    constructor ()
      ensures Valid() && fresh(cells) && View() == NO_RECORDING
    {
      var state := new SeriesState();
      overall := state;
      perTool := map[];
      cells := state.Cells();
    }

    method Record(micros: nat, outcome: CallOutcome, shard: nat)
      requires Valid() && shard < NUM_SHARDS
      modifies overall.Cells()
      ensures Valid() && perTool == old(perTool) && cells == old(cells)
      ensures View() == old(View()).Plus(OfCall(Call(None, micros, outcome)))
    {
      hide SeriesState.View, Sampled;
      overall.Observe(micros, outcome, shard);
      ToolsUnit(old(View()).perTool);
      assert View().perTool == old(View()).perTool;
    }

    method Insert(tool: string, state: SeriesState)
      requires Valid() && tool !in perTool
      requires state.Valid() && state.Cells() !! cells + {this} && state.View() == NO_SERIES
      modifies this
      ensures Valid() && perTool == old(perTool)[tool := state] && cells == old(cells) + state.Cells()
      ensures View().overall == old(View().overall) && View().perTool == old(View().perTool)[tool := NO_SERIES]
    {
      hide SeriesState.View, SeriesState.Cells, SeriesState.Valid;
      perTool := perTool[tool := state];
      cells := cells + state.Cells();
    }

    /** The entry of a tool is created the first time the tool is seen, and never replaced. */
    method EnterTool(tool: string)
      requires Valid()
      modifies this
      ensures Valid() && tool in perTool && fresh(cells - old(cells))
      ensures forall t :: t in old(perTool) ==> t in perTool && perTool[t] == old(perTool)[t]
      ensures View().overall == old(View().overall)
      ensures View().perTool == if tool in old(perTool) then old(View().perTool) else old(View().perTool)[tool := NO_SERIES]
    {
      hide SeriesState.View, SeriesState.Cells, SeriesState.Valid;
      if tool !in perTool {
        var state := new SeriesState();
        Insert(tool, state);
      }
    }

    /** The counters and histogram of an existing entry gain one call; nothing else moves. */
    method ObserveTool(tool: string, micros: nat, outcome: CallOutcome, shard: nat)
      requires Valid() && shard < NUM_SHARDS && tool in perTool
      modifies perTool[tool].Cells()
      ensures Valid() && perTool == old(perTool) && cells == old(cells)
      ensures View().overall == old(View().overall)
      ensures View().perTool == old(View().perTool)[tool := old(View().perTool[tool]).Plus(Sampled(Call(None, micros, outcome)))]
    {
      hide SeriesState.View, Sampled;
      perTool[tool].Observe(micros, outcome, shard);
      assert forall t :: t in perTool && t != tool ==> perTool[t].View() == old(perTool[t].View());
    }

    method RecordTool(tool: string, micros: nat, outcome: CallOutcome, shard: nat)
      requires Valid() && shard < NUM_SHARDS
      modifies this, cells
      ensures Valid() && fresh(cells - old(cells))
      ensures forall t :: t in old(perTool) ==> t in perTool && perTool[t] == old(perTool)[t]
      ensures View() == old(View()).Plus(OfCall(Call(Some(tool), micros, outcome)))
    {
      hide SeriesState.View, Sampled, MergeTools, SeriesState.Valid, SeriesState.Cells;
      ghost var was := View();
      ghost var gain := Sampled(Call(None, micros, outcome));
      Record(micros, outcome, shard);
      ToolsUnit(was.perTool);
      EnterTool(tool);
      ObserveTool(tool, micros, outcome, shard);
      OneToolGains(was.perTool, if tool in was.perTool then was.perTool else was.perTool[tool := NO_SERIES], tool, gain);
      SampledIgnoresTool(Call(Some(tool), micros, outcome));
    }

    /** The samples the latency figures are taken from, the counters, the request total and the successes,
        as one snapshot reports them. */
    method Snapshot() returns (samples: multiset<nat>, outcomes: OutcomeCounts, total: nat, successful: nat)
      requires Valid()
      ensures samples == View().overall.samples && outcomes == View().overall.outcomes
      ensures total == |View().overall.outcomes|
      ensures successful == View().overall.outcomes[Success] + View().overall.outcomes[ExpectedRejection]
    {
      outcomes := overall.outcomes.Counts();
      samples := overall.latency.Merged();
      total := overall.outcomes.Total();
      successful := overall.outcomes.success + overall.outcomes.expectedRejection;
    }

    /** The merged histogram of one tool that was recorded by name. */
    method ToolHistogram(tool: string) returns (merged: multiset<nat>)
      requires Valid() && tool in perTool
      ensures merged == View().perTool[tool].samples
    {
      merged := perTool[tool].latency.Merged();
    }
  }

  lemma {:induction false} SampledIgnoresTool(call: Call)
    ensures Sampled(call) == Sampled(Call(None, call.micros, call.outcome))
  {
  }

  /** Looking a tool up (creating it if new) and adding to it merges one series into the tool map. */
  lemma {:induction false} OneToolGains(was: map<string, Series>, entered: map<string, Series>, tool: string,
        gain: Series)
    requires entered == if tool in was then was else was[tool := NO_SERIES]
    ensures entered[tool := entered[tool].Plus(gain)] == MergeTools(was, map[tool := gain])
  {
    var l, r := entered[tool := entered[tool].Plus(gain)], MergeTools(was, map[tool := gain]);
    assert l.Keys == r.Keys;
    forall t | t in l ensures SeriesOf(l, t) == SeriesOf(r, t) {
      MergedSeries(was, map[tool := gain], t);
    }
    SameTools(l, r);
  }
}
