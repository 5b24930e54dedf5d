/** Threads recording into one shared recorder, one atomic step at a time, under every schedule. */
module RecorderRuns {
  import opened Basics
  import opened Metrics
  import opened RecorderSpec
  import O = Ordering
  import R = Recorder
  import T = Totals

  /** The atomic steps of recording one call, in the order a thread takes them. */
  datatype At =
    | BumpGlobal | SampleGlobal
    /** Look the tool up under the read lock. */
    | Lookup(tool: string)
    /** Take the write lock, look again, insert when still absent. */
    | Insert(tool: string)
    /** `id` is the shared tool state this thread got hold of. */
    | BumpTool(tool: string, id: nat) | SampleTool(tool: string, id: nat)

  datatype Thread = Idle | Busy(call: Call, at: At)

  const EMPTY_SHARDS: seq<multiset<nat>> :=
    [multiset{}, multiset{}, multiset{}, multiset{}, multiset{}, multiset{}, multiset{}, multiset{},
     multiset{}, multiset{}, multiset{}, multiset{}, multiset{}, multiset{}, multiset{}, multiset{}]

  type Shards = s: seq<multiset<nat>> | |s| == 16 witness EMPTY_SHARDS
  type Slot = k: nat | k < 16

  /** The shared state of one scope: its counters and its histogram shards. */
  datatype Cell = Cell(outcomes: OutcomeCounts, shards: Shards)

  const EMPTY_CELL := Cell(multiset{}, EMPTY_SHARDS)

  /** `perTool` maps a tool to its state in `heap`; `started` remembers every call ever begun. */
  datatype Shared = Shared(
    overall: Cell, perTool: map<string, nat>, heap: seq<Cell>, threads: seq<Thread>, started: seq<Call>)

  /** Thread `i` begins a call, or takes its next atomic step; `slot` is the shard it hashes to. */
  datatype Event = Begin(i: nat, call: Call) | Next(i: nat, slot: Slot)

  function Init(threads: nat): Shared {
    Shared(EMPTY_CELL, map[], [], seq(threads, _ => Idle), [])
  }

  function Bumped(c: Cell, call: Call): Cell {
    c.(outcomes := c.outcomes + multiset{call.outcome})
  }

  function Filed(c: Cell, call: Call, slot: Slot): Cell {
    c.(shards := c.shards[slot := c.shards[slot] + multiset{Clamped(Saturated(call.micros))}])
  }

  /** After the global part: tool calls go on to the tool map, plain calls are done. */
  function AfterGlobal(call: Call): Thread {
    if call.tool.Some? then Busy(call, Lookup(call.tool.value)) else Idle
  }

  function AfterBump(call: Call, tool: string, id: nat): Thread {
    if call.outcome.ContributesToLatency() then Busy(call, SampleTool(tool, id)) else Idle
  }

  /** One atomic step of a thread; a held state never dangles, so the last resort is never taken. */
  function Take(s: Shared, i: nat, slot: Slot): Shared
    requires i < |s.threads| && s.threads[i].Busy?
  {
    var call := s.threads[i].call;
    match s.threads[i].at
    case BumpGlobal =>
      s.(overall := Bumped(s.overall, call),
         threads := s.threads[i := if call.outcome.ContributesToLatency() then Busy(call, SampleGlobal) else AfterGlobal(call)])
    case SampleGlobal =>
      s.(overall := Filed(s.overall, call, slot), threads := s.threads[i := AfterGlobal(call)])
    case Lookup(tool) =>
      s.(threads := s.threads[i := Busy(call, if tool in s.perTool then BumpTool(tool, s.perTool[tool]) else Insert(tool))])
    case Insert(tool) =>
      if tool in s.perTool then s.(threads := s.threads[i := Busy(call, BumpTool(tool, s.perTool[tool]))])
      else s.(perTool := s.perTool[tool := |s.heap|], heap := s.heap + [EMPTY_CELL],
              threads := s.threads[i := Busy(call, BumpTool(tool, |s.heap|))])
    case BumpTool(tool, id) =>
      if id < |s.heap| then
        s.(heap := s.heap[id := Bumped(s.heap[id], call)], threads := s.threads[i := AfterBump(call, tool, id)])
      else s
    case SampleTool(tool, id) =>
      if id < |s.heap| then s.(heap := s.heap[id := Filed(s.heap[id], call, slot)], threads := s.threads[i := Idle])
      else s
  }

  function Do(s: Shared, e: Event): Shared {
    if e.i >= |s.threads| then s
    else
      match e
      case Begin(i, call) =>
        if s.threads[i].Idle? then s.(threads := s.threads[i := Busy(call, BumpGlobal)], started := s.started + [call]) else s
      case Next(i, slot) =>
        if s.threads[i].Busy? then Take(s, i, slot) else s
  }

  function Run(s: Shared, events: seq<Event>): Shared {
    if events == [] then s else Do(Run(s, events[..|events| - 1]), events[|events| - 1])
  }

  // ----- what is recorded, and what is still owed

  function SeriesIn(c: Cell): Series {
    Series(c.outcomes, R.Union(c.shards))
  }

  function ToolSeries(perTool: map<string, nat>, heap: seq<Cell>): map<string, Series> {
    map t | t in perTool :: if perTool[t] < |heap| then SeriesIn(heap[perTool[t]]) else NO_SERIES
  }

  function Observed(s: Shared): Recording {
    Recording(SeriesIn(s.overall), ToolSeries(s.perTool, s.heap))
  }

  /** What a thread has yet to add to the recorder. */
  function Owed(th: Thread): Recording {
    match th
    case Idle => NO_RECORDING
    case Busy(call, BumpGlobal) => OfCall(call)
    case Busy(call, SampleGlobal) => Recording(Series(multiset{}, SampleOf(call)), ToolPart(call, Sampled(call)))
    case Busy(call, SampleTool(_, _)) => Recording(NO_SERIES, ToolPart(call, Series(multiset{}, SampleOf(call))))
    case Busy(call, _) => Recording(NO_SERIES, ToolPart(call, Sampled(call)))
  }

  function AllOwed(threads: seq<Thread>): Recording {
    if threads == [] then NO_RECORDING else AllOwed(threads[..|threads| - 1]).Plus(Owed(threads[|threads| - 1]))
  }

  predicate Owned(perTool: map<string, nat>, id: nat) {
    exists t :: t in perTool && perTool[t] == id
  }

  /** Tools and states correspond one to one. */
  ghost predicate Mapped(perTool: map<string, nat>, states: nat) {
    && (forall t :: t in perTool ==> perTool[t] < states)
    && (forall id :: 0 <= id < states ==> Owned(perTool, id))
    && (forall t, u :: t in perTool && u in perTool && perTool[t] == perTool[u] ==> t == u)
  }

  /** In addition, threads hold the state of their own tool. */
  ghost predicate Shaped(s: Shared) {
    && Mapped(s.perTool, |s.heap|)
    && (forall i :: 0 <= i < |s.threads| ==> Placed(s.perTool, s.threads[i]))
  }

  predicate Placed(perTool: map<string, nat>, th: Thread) {
    th.Busy? ==>
      match th.at
      case BumpGlobal => true
      case SampleGlobal => th.call.outcome.ContributesToLatency()
      case Lookup(tool) => th.call.tool == Some(tool)
      case Insert(tool) => th.call.tool == Some(tool)
      case BumpTool(tool, id) => th.call.tool == Some(tool) && tool in perTool && perTool[tool] == id
      case SampleTool(tool, id) =>
        th.call.tool == Some(tool) && tool in perTool && perTool[tool] == id && th.call.outcome.ContributesToLatency()
  }

  /** Nothing is lost and nothing is counted twice: what the recorder holds plus what busy threads
      still owe it is exactly the summary of the calls begun. */
  ghost predicate Accounted(s: Shared) {
    Observed(s).Plus(AllOwed(s.threads)) == Summary(s.started)
  }

  // ----- one thread changes

  lemma {:induction false} Rotate(a: Recording, b: Recording, c: Recording)
    ensures a.Plus(b).Plus(c) == a.Plus(c).Plus(b)
  {
    hide Recording.Plus;
    PlusAssociates(a, b, c);
    PlusCommutes(b, c);
    PlusAssociates(a, c, b);
  }

  lemma {:induction false} OwedPullsOut(threads: seq<Thread>, i: nat)
    requires i < |threads|
    ensures AllOwed(threads) == AllOwed(T.Without(threads, i)).Plus(Owed(threads[i]))
  {
    hide Owed, Recording.Plus;
    var n := |threads| - 1;
    if i == n {
      assert T.Without(threads, i) == threads[..n];
    } else {
      OwedPullsOut(threads[..n], i);
      var rest := T.Without(threads, i);
      assert rest[..|rest| - 1] == T.Without(threads[..n], i) && rest[|rest| - 1] == threads[n];
      Rotate(AllOwed(T.Without(threads[..n], i)), Owed(threads[i]), Owed(threads[n]));
    }
  }

  /** When one step moves value from what a thread owes into the recorder, the account balances. */
  lemma {:induction false} Transfer(o: Recording, o': Recording, threads: seq<Thread>, i: nat, th: Thread,
        gain: Recording)
    requires i < |threads|
    requires o'.Plus(Owed(th)) == o.Plus(Owed(threads[i])).Plus(gain)
    ensures o'.Plus(AllOwed(threads[i := th])) == o.Plus(AllOwed(threads)).Plus(gain)
  {
    hide Owed, Recording.Plus, AllOwed;
    var rest := AllOwed(T.Without(threads, i));
    OwedPullsOut(threads, i);
    OwedPullsOut(threads[i := th], i);
    assert T.Without(threads[i := th], i) == T.Without(threads, i);
    Regroup(o', rest, Owed(th));
    Regroup(o, rest, Owed(threads[i]));
    Rotate(o.Plus(Owed(threads[i])), gain, rest);
  }

  lemma {:induction false} Regroup(o: Recording, rest: Recording, mine: Recording)
    ensures o.Plus(rest.Plus(mine)) == o.Plus(mine).Plus(rest)
  {
    hide Recording.Plus;
    PlusAssociates(o, rest, mine);
    Rotate(o, rest, mine);
  }

  // ----- each atomic step moves exactly what it records out of the thread's debt

  /** Two tool maps that differ at one tool merge alike when the other operand makes up for it. */
  lemma {:induction false} MergeAlike(
      a: map<string, Series>, g: map<string, Series>, a': map<string, Series>, g': map<string, Series>, tool: string)
    requires a.Keys + g.Keys == a'.Keys + g'.Keys
    requires forall t :: t != tool ==> SeriesOf(a, t) == SeriesOf(a', t) && SeriesOf(g, t) == SeriesOf(g', t)
    requires SeriesOf(a, tool).Plus(SeriesOf(g, tool)) == SeriesOf(a', tool).Plus(SeriesOf(g', tool))
    ensures MergeTools(a, g) == MergeTools(a', g')
  {
    hide SeriesOf;
    forall t | t in MergeTools(a, g) ensures SeriesOf(MergeTools(a, g), t) == SeriesOf(MergeTools(a', g'), t) {
      MergedSeries(a, g, t);
      MergedSeries(a', g', t);
    }
    SameTools(MergeTools(a, g), MergeTools(a', g'));
  }

  lemma {:induction false} BumpedSeries(c: Cell, call: Call)
    ensures SeriesIn(Bumped(c, call)) == SeriesIn(c).Plus(Series(multiset{call.outcome}, multiset{}))
  {
  }

  lemma {:induction false} FiledSeries(c: Cell, call: Call, slot: Slot)
    requires call.outcome.ContributesToLatency()
    ensures SeriesIn(Filed(c, call, slot)) == SeriesIn(c).Plus(Series(multiset{}, SampleOf(call)))
  {
    assert Clamped(Saturated(call.micros)) == Clamped(call.micros);
    R.UnionGains(c.shards, slot, Clamped(call.micros));
  }

  /** The debt of a thread that is through with the global part. */
  lemma {:induction false} OwedAfterGlobal(call: Call)
    ensures Owed(AfterGlobal(call)) == Recording(NO_SERIES, ToolPart(call, Sampled(call)))
  {
  }

  /** The debt of a thread whose tool counter has just been bumped, in its own tool. */
  lemma {:induction false} OwedAfterBump(call: Call, tool: string, id: nat)
    requires call.tool == Some(tool)
    ensures Owed(AfterBump(call, tool, id)).overall == NO_SERIES
    ensures Owed(AfterBump(call, tool, id)).perTool.Keys <= {tool}
    ensures SeriesOf(Owed(AfterBump(call, tool, id)).perTool, tool) == Series(multiset{}, SampleOf(call))
  {
  }

  /** Writing one state changes the series of its own tool only. */
  lemma {:induction false} OneCellChanges(perTool: map<string, nat>, heap: seq<Cell>, tool: string, c: Cell)
    requires tool in perTool && perTool[tool] < |heap|
    requires forall t, u :: t in perTool && u in perTool && perTool[t] == perTool[u] ==> t == u
    ensures ToolSeries(perTool, heap[perTool[tool] := c]) == ToolSeries(perTool, heap)[tool := SeriesIn(c)]
    ensures tool in ToolSeries(perTool, heap) && ToolSeries(perTool, heap)[tool] == SeriesIn(heap[perTool[tool]])
  {
    hide SeriesIn;
  }

  lemma {:induction false} EmptyCell()
    ensures SeriesIn(EMPTY_CELL) == NO_SERIES
  {
    R.UnionEmpty(EMPTY_SHARDS);
  }

  /** A fresh state adds an empty series and leaves the others. */
  lemma {:induction false} NewCell(perTool: map<string, nat>, heap: seq<Cell>, tool: string)
    requires tool !in perTool && forall t :: t in perTool ==> perTool[t] < |heap|
    ensures ToolSeries(perTool[tool := |heap|], heap + [EMPTY_CELL]) == ToolSeries(perTool, heap)[tool := NO_SERIES]
    ensures tool !in ToolSeries(perTool, heap)
  {
    EmptyCell();
    hide SeriesIn;
  }

  lemma {:induction false} GlobalStepAccounts(s: Shared, i: nat, slot: Slot)
    requires Shaped(s) && i < |s.threads| && s.threads[i].Busy?
    requires s.threads[i].at.BumpGlobal? || s.threads[i].at.SampleGlobal?
    ensures var s' := Take(s, i, slot);
      Observed(s').Plus(Owed(s'.threads[i])) == Observed(s).Plus(Owed(s.threads[i]))
  {
    var call := s.threads[i].call;
    assert Placed(s.perTool, s.threads[i]);
    hide ToolSeries, SeriesIn, Sampled, AfterGlobal, MergeTools, ToolPart, Bumped, Filed;
    OwedAfterGlobal(call);
    SampledIs(call);
    if s.threads[i].at.BumpGlobal? {
      BumpedSeries(s.overall, call);
    } else {
      FiledSeries(s.overall, call, slot);
    }
  }

  lemma {:induction false} SampledIs(call: Call)
    ensures Sampled(call) == Series(multiset{call.outcome}, SampleOf(call))
    ensures !call.outcome.ContributesToLatency() ==> SampleOf(call) == multiset{}
  {
  }

  lemma {:induction false} MapStepAccounts(s: Shared, i: nat, slot: Slot)
    requires Shaped(s) && i < |s.threads| && s.threads[i].Busy?
    requires s.threads[i].at.Lookup? || s.threads[i].at.Insert?
    ensures var s' := Take(s, i, slot);
      Observed(s').Plus(Owed(s'.threads[i])) == Observed(s).Plus(Owed(s.threads[i]))
  {
    hide ToolSeries, SeriesIn, Sampled, MergeTools, ToolPart;
    var call := s.threads[i].call;
    var tool := s.threads[i].at.tool;
    var s' := Take(s, i, slot);
    assert Owed(s'.threads[i]) == Owed(s.threads[i]) == Recording(NO_SERIES, ToolPart(call, Sampled(call)));
    if s.threads[i].at.Insert? && tool !in s.perTool {
      assert call.tool == Some(tool) by {
        assert Placed(s.perTool, s.threads[i]);
      }
      InsertAccounts(s.perTool, s.heap, call, tool);
    } else {
      assert Observed(s') == Observed(s);
    }
  }

  lemma {:induction false} InsertAccounts(perTool: map<string, nat>, heap: seq<Cell>, call: Call, tool: string)
    requires tool !in perTool && (forall t :: t in perTool ==> perTool[t] < |heap|) && call.tool == Some(tool)
    ensures MergeTools(ToolSeries(perTool[tool := |heap|], heap + [EMPTY_CELL]), ToolPart(call, Sampled(call)))
         == MergeTools(ToolSeries(perTool, heap), ToolPart(call, Sampled(call)))
  {
    hide ToolSeries, SeriesIn, Sampled, MergeTools;
    var was := ToolSeries(perTool, heap);
    NewCell(perTool, heap, tool);
    MergeAlike(was, ToolPart(call, Sampled(call)), was[tool := NO_SERIES], ToolPart(call, Sampled(call)), tool);
  }

  /** A gain filed in the state of `tool` balances the same gain leaving the debt of the thread. */
  lemma {:induction false} ToolGains(s: Shared, tool: string, c: Cell, owed: Recording, owed': Recording)
    requires tool in s.perTool && s.perTool[tool] < |s.heap|
    requires forall t, u :: t in s.perTool && u in s.perTool && s.perTool[t] == s.perTool[u] ==> t == u
    requires owed.overall == owed'.overall && owed.perTool.Keys <= {tool} && owed'.perTool.Keys <= {tool}
    requires SeriesIn(s.heap[s.perTool[tool]]).Plus(SeriesOf(owed.perTool, tool)) == SeriesIn(c).Plus(SeriesOf(owed'.perTool, tool))
    ensures Observed(s.(heap := s.heap[s.perTool[tool] := c])).Plus(owed') == Observed(s).Plus(owed)
  {
    hide ToolSeries, SeriesIn, MergeTools;
    var was := ToolSeries(s.perTool, s.heap);
    OneCellChanges(s.perTool, s.heap, tool, c);
    MergeAlike(was, owed.perTool, was[tool := SeriesIn(c)], owed'.perTool, tool);
  }

  lemma {:induction false} ToolStepAccounts(s: Shared, i: nat, slot: Slot)
    requires Shaped(s) && i < |s.threads| && s.threads[i].Busy?
    requires s.threads[i].at.BumpTool? || s.threads[i].at.SampleTool?
    ensures var s' := Take(s, i, slot);
      Observed(s').Plus(Owed(s'.threads[i])) == Observed(s).Plus(Owed(s.threads[i]))
  {
    var th := s.threads[i];
    var call, tool, id := th.call, th.at.tool, th.at.id;
    assert Placed(s.perTool, th);
    hide ToolSeries, SeriesIn, Sampled, AfterBump, MergeTools, Bumped, Filed, Placed, Recording.Plus;
    var s' := Take(s, i, slot);
    SampledIs(call);
    if th.at.BumpTool? {
      BumpedSeries(s.heap[id], call);
      OwedAfterBump(call, tool, id);
    } else {
      FiledSeries(s.heap[id], call, slot);
    }
    ToolGains(s, tool, s'.heap[id], Owed(th), Owed(s'.threads[i]));
    assert Observed(s') == Observed(s.(heap := s.heap[id := s'.heap[id]]));
  }

  lemma {:induction false} MappedGrows(perTool: map<string, nat>, states: nat, tool: string)
    requires Mapped(perTool, states) && tool !in perTool
    ensures Mapped(perTool[tool := states], states + 1)
  {
    var more := perTool[tool := states];
    forall id | 0 <= id < states + 1 ensures Owned(more, id) {
      if id < states {
        assert Owned(perTool, id);
        var t :| t in perTool && perTool[t] == id;
        assert t in more && more[t] == id;
      } else {
        assert tool in more && more[tool] == id;
      }
    }
  }

  lemma {:induction false} TakeShaped(s: Shared, i: nat, slot: Slot)
    requires Shaped(s) && i < |s.threads| && s.threads[i].Busy?
    ensures Shaped(Take(s, i, slot))
    ensures Take(s, i, slot).started == s.started
    ensures Take(s, i, slot).threads == s.threads[i := Take(s, i, slot).threads[i]]
  {
    hide Bumped, Filed;
    var s' := Take(s, i, slot);
    assert Placed(s.perTool, s.threads[i]);
    assert Mapped(s'.perTool, |s'.heap|) by {
      hide Mapped, Placed, AfterGlobal, AfterBump;
      if s.threads[i].at.Insert? && s.threads[i].at.tool !in s.perTool {
        MappedGrows(s.perTool, |s.heap|, s.threads[i].at.tool);
      }
    }
    forall k | 0 <= k < |s'.threads| ensures Placed(s'.perTool, s'.threads[k]) {
      assert Placed(s.perTool, s.threads[k]);
    }
  }

  lemma {:induction false} TakeAccounts(s: Shared, i: nat, slot: Slot)
    requires Shaped(s) && Accounted(s) && i < |s.threads| && s.threads[i].Busy?
    ensures Accounted(Take(s, i, slot))
  {
    var s' := Take(s, i, slot);
    TakeShaped(s, i, slot);
    if s.threads[i].at.BumpGlobal? || s.threads[i].at.SampleGlobal? {
      GlobalStepAccounts(s, i, slot);
    } else if s.threads[i].at.Lookup? || s.threads[i].at.Insert? {
      MapStepAccounts(s, i, slot);
    } else {
      ToolStepAccounts(s, i, slot);
    }
    hide Take, Observed, Recording.Plus, Owed, AllOwed, Shaped;
    PlusUnit(Observed(s).Plus(Owed(s.threads[i])));
    PlusUnit(Observed(s).Plus(AllOwed(s.threads)));
    Transfer(Observed(s), Observed(s'), s.threads, i, s'.threads[i], NO_RECORDING);
  }

  lemma {:induction false} BeginShaped(s: Shared, i: nat, call: Call)
    requires Shaped(s) && i < |s.threads| && s.threads[i].Idle?
    ensures Shaped(Do(s, Begin(i, call)))
  {
    var s' := Do(s, Begin(i, call));
    forall k | 0 <= k < |s'.threads| ensures Placed(s'.perTool, s'.threads[k]) {
      assert k == i || s'.threads[k] == s.threads[k];
    }
  }

  lemma {:induction false} BeginAccounts(s: Shared, i: nat, call: Call)
    requires Accounted(s) && i < |s.threads| && s.threads[i].Idle?
    ensures Accounted(Do(s, Begin(i, call)))
  {
    hide Recording.Plus, AllOwed, OfCall, SeriesIn, ToolSeries, Summary;
    var s' := Do(s, Begin(i, call));
    assert Observed(s') == Observed(s);
    assert Owed(s'.threads[i]) == OfCall(call) && Owed(s.threads[i]) == NO_RECORDING;
    PlusUnit(Observed(s));
    Transfer(Observed(s), Observed(s), s.threads, i, s'.threads[i], OfCall(call));
    SummarySnoc(s.started, call);
  }

  lemma {:induction false} DoAccounts(s: Shared, e: Event)
    requires Shaped(s) && Accounted(s)
    ensures Shaped(Do(s, e)) && Accounted(Do(s, e))
  {
    hide Shaped, Accounted, Take;
    if e.i < |s.threads| {
      if e.Begin? && s.threads[e.i].Idle? {
        BeginShaped(s, e.i, e.call);
        BeginAccounts(s, e.i, e.call);
      } else if e.Next? && s.threads[e.i].Busy? {
        TakeShaped(s, e.i, e.slot);
        TakeAccounts(s, e.i, e.slot);
      }
    }
  }

  lemma {:induction false} IdleOwesNothing(threads: seq<Thread>)
    requires forall i :: 0 <= i < |threads| ==> threads[i].Idle?
    ensures AllOwed(threads) == NO_RECORDING
  {
    if threads != [] {
      IdleOwesNothing(threads[..|threads| - 1]);
      PlusUnit(NO_RECORDING);
    }
  }

  lemma {:induction false} InitAccounts(n: nat)
    ensures Shaped(Init(n)) && Accounted(Init(n))
  {
    EmptyCell();
    IdleOwesNothing(Init(n).threads);
    PlusUnit(NO_RECORDING);
    assert Observed(Init(n)) == NO_RECORDING;
  }

  /** Under every schedule, at every step: what the recorder shows plus what threads still owe is
      the summary of all calls begun. */
  lemma {:induction false} AlwaysAccounted(n: nat, events: seq<Event>)
    ensures Shaped(Run(Init(n), events)) && Accounted(Run(Init(n), events))
  {
    hide Shaped, Accounted, Do, Init;
    if events == [] {
      InitAccounts(n);
    } else {
      AlwaysAccounted(n, events[..|events| - 1]);
      DoAccounts(Run(Init(n), events[..|events| - 1]), events[|events| - 1]);
    }
  }

  ghost predicate Quiescent(s: Shared) {
    forall i :: 0 <= i < |s.threads| ==> s.threads[i].Idle?
  }

  /** Once no thread is in the middle of a call, the shared recorder holds exactly what one recorder
      fed every call in any order holds: same tools, counters and samples. */
  lemma {:induction false} QuiescentIsExact(n: nat, events: seq<Event>, calls: seq<Call>)
    requires Quiescent(Run(Init(n), events))
    requires multiset(calls) == multiset(Run(Init(n), events).started)
    ensures Observed(Run(Init(n), events)) == Summary(calls)
  {
    hide Run, Observed, Recording.Plus, Summary;
    var s := Run(Init(n), events);
    AlwaysAccounted(n, events);
    IdleOwesNothing(s.threads);
    PlusUnit(Observed(s));
    SummaryIgnoresOrder(calls, s.started);
  }

  // ----- entries are never replaced

  ghost predicate CellGrows(c: Cell, d: Cell) {
    c.outcomes <= d.outcomes && forall k :: 0 <= k < |c.shards| ==> c.shards[k] <= d.shards[k]
  }

  /** Every tool keeps its state, and every state only gains. */
  ghost predicate Grows(s: Shared, t: Shared) {
    && |s.heap| <= |t.heap| && CellGrows(s.overall, t.overall)
    && (forall tool :: tool in s.perTool ==> tool in t.perTool && t.perTool[tool] == s.perTool[tool])
    && (forall id :: 0 <= id < |s.heap| ==> CellGrows(s.heap[id], t.heap[id]))
  }

  lemma {:induction false} CellSteps(c: Cell, call: Call, slot: Slot)
    ensures CellGrows(c, c) && CellGrows(c, Bumped(c, call)) && CellGrows(c, Filed(c, call, slot))
  {
  }

  lemma {:induction false} DoGrows(s: Shared, e: Event)
    ensures Grows(s, Do(s, e))
  {
    hide Bumped, Filed, CellGrows, AfterGlobal, AfterBump;
    var call := if e.i < |s.threads| && s.threads[e.i].Busy? then s.threads[e.i].call else Call(None, 0, Success);
    var slot := if e.Next? then e.slot else 0;
    CellSteps(s.overall, call, slot);
    forall id | 0 <= id < |s.heap|
      ensures CellGrows(s.heap[id], s.heap[id])
      ensures CellGrows(s.heap[id], Bumped(s.heap[id], call)) && CellGrows(s.heap[id], Filed(s.heap[id], call, slot))
    {
      CellSteps(s.heap[id], call, slot);
    }
  }

  /** No schedule ever loses or replaces a tool's entry, or takes a count back. */
  lemma {:induction false} EntriesStay(s: Shared, events: seq<Event>)
    ensures Grows(s, Run(s, events))
  {
    if events != [] {
      EntriesStay(s, events[..|events| - 1]);
      DoGrows(Run(s, events[..|events| - 1]), events[|events| - 1]);
      hide Do, CellGrows, Run;
      var t, u := Run(s, events[..|events| - 1]), Do(Run(s, events[..|events| - 1]), events[|events| - 1]);
      GrowsTransitive(s, t, u);
      RunSnoc(s, events);
    }
  }

  lemma {:induction false} RunSnoc(s: Shared, events: seq<Event>)
    requires events != []
    ensures Run(s, events) == Do(Run(s, events[..|events| - 1]), events[|events| - 1])
  {
  }

  lemma {:induction false} GrowsTransitive(s: Shared, t: Shared, u: Shared)
    requires Grows(s, t) && Grows(t, u)
    ensures Grows(s, u)
  {
    CellGrowsTransitive(s.overall, t.overall, u.overall);
    forall id | 0 <= id < |s.heap| ensures CellGrows(s.heap[id], u.heap[id]) {
      CellGrowsTransitive(s.heap[id], t.heap[id], u.heap[id]);
    }
  }

  lemma {:induction false} CellGrowsTransitive(c: Cell, d: Cell, e: Cell)
    requires CellGrows(c, d) && CellGrows(d, e)
    ensures CellGrows(c, e)
  {
  }

  // ----- how far the histograms and the tool counters lag

  function Tally(threads: seq<Thread>, f: Thread -> nat): nat {
    if threads == [] then 0 else Tally(threads[..|threads| - 1], f) + f(threads[|threads| - 1])
  }

  /** Between the counter and the histogram of the global aggregate. */
  function GlobalLag(th: Thread): nat {
    if th.Busy? && th.at.SampleGlobal? then 1 else 0
  }

  /** Between the counter and the histogram of one tool. */
  function ToolLag(tool: string): Thread -> nat {
    (th: Thread) => if th.Busy? && th.at.SampleTool? && th.at.tool == tool then 1 else 0
  }

  lemma {:induction false} OwedLag(perTool: map<string, nat>, th: Thread, tool: string)
    requires Placed(perTool, th)
    ensures var o := Owed(th).overall;
      |o.samples| == LatencyBearing(o.outcomes) + GlobalLag(th)
    ensures var o := SeriesOf(Owed(th).perTool, tool);
      |o.samples| == LatencyBearing(o.outcomes) + ToolLag(tool)(th)
  {
    if th.Busy? {
      SampledIs(th.call);
      CallBalanced(th.call);
      hide Sampled;
    }
  }

  lemma {:induction false} AllOwedLag(perTool: map<string, nat>, threads: seq<Thread>, tool: string)
    requires forall i :: 0 <= i < |threads| ==> Placed(perTool, threads[i])
    ensures var o := AllOwed(threads).overall;
      |o.samples| == LatencyBearing(o.outcomes) + Tally(threads, GlobalLag)
    ensures var o := SeriesOf(AllOwed(threads).perTool, tool);
      |o.samples| == LatencyBearing(o.outcomes) + Tally(threads, ToolLag(tool))
  {
    if threads != [] {
      var shorter, last := threads[..|threads| - 1], threads[|threads| - 1];
      AllOwedLag(perTool, shorter, tool);
      hide Placed, Owed, SeriesOf, MergeTools, ToolLag;
      OwedLag(perTool, last, tool);
      MergedSeries(AllOwed(shorter).perTool, Owed(last).perTool, tool);
    }
  }

  /** At every step of every schedule a histogram holds one sample per success, hang and deadlock
      counted, less one for each thread caught between the two: it is never ahead of the counters. */
  lemma {:induction false} HistogramNeverAhead(n: nat, events: seq<Event>, tool: string)
    ensures var s := Run(Init(n), events);
      LatencyBearing(Observed(s).overall.outcomes) == |Observed(s).overall.samples| + Tally(s.threads, GlobalLag)
    ensures var s := Run(Init(n), events);
      var o := SeriesOf(Observed(s).perTool, tool);
      LatencyBearing(o.outcomes) == |o.samples| + Tally(s.threads, ToolLag(tool))
  {
    var s := Run(Init(n), events);
    AlwaysAccounted(n, events);
    AllOwedLag(s.perTool, s.threads, tool);
    hide Run, Observed, AllOwed, Tally, SeriesOf, MergeTools, Summary, ToolLag, Init;
    SummaryBalanced(s.started, tool);
    MergedSeries(Observed(s).perTool, AllOwed(s.threads).perTool, tool);
  }

  /** The requests counted under all tools together. */
  function ToolTotal(tools: map<string, Series>): nat
    decreases |tools|
  {
    if tools == map[] then 0
    else
      var tool := O.Least(tools.Keys);
      |tools[tool].outcomes| + ToolTotal(tools - {tool})
  }

  lemma {:induction false} TotalWithout(tools: map<string, Series>, tool: string)
    ensures ToolTotal(tools) == |SeriesOf(tools, tool).outcomes| + ToolTotal(tools - {tool})
    decreases |tools|
  {
    if tool !in tools {
      assert tools - {tool} == tools;
    } else if tool != O.Least(tools.Keys) {
      var least := O.Least(tools.Keys);
      TotalWithout(tools - {least}, tool);
      O.LeastUnique((tools - {tool}).Keys, least, O.Least((tools - {tool}).Keys));
      assert tools - {least} - {tool} == tools - {tool} - {least};
    }
  }

  lemma {:induction false} SeriesWithout(a: map<string, Series>, tool: string, t: string)
    requires t != tool
    ensures SeriesOf(a - {tool}, t) == SeriesOf(a, t)
  {
  }

  lemma {:induction false} MergeWithout(a: map<string, Series>, b: map<string, Series>, tool: string)
    ensures MergeTools(a, b) - {tool} == MergeTools(a - {tool}, b - {tool})
  {
    hide SeriesOf, Series.Plus;
    var left, right := MergeTools(a, b) - {tool}, MergeTools(a - {tool}, b - {tool});
    assert left.Keys == right.Keys;
    forall t | t in left ensures left[t] == right[t] {
      SeriesWithout(a, tool, t);
      SeriesWithout(b, tool, t);
    }
  }

  lemma {:induction false} NoTools(a: map<string, Series>, b: map<string, Series>)
    requires MergeTools(a, b) == map[]
    ensures a == map[] && b == map[]
  {
    assert a.Keys <= MergeTools(a, b).Keys && b.Keys <= MergeTools(a, b).Keys;
  }

  lemma {:induction false} TotalMerges(a: map<string, Series>, b: map<string, Series>)
    ensures ToolTotal(MergeTools(a, b)) == ToolTotal(a) + ToolTotal(b)
    decreases |MergeTools(a, b)|
  {
    if MergeTools(a, b) == map[] {
      NoTools(a, b);
    } else {
      hide MergeTools, SeriesOf, ToolTotal;
      var tool :| tool in MergeTools(a, b);
      MergedSeries(a, b, tool);
      MergeWithout(a, b, tool);
      Smaller(MergeTools(a, b), tool);
      TotalMerges(a - {tool}, b - {tool});
      TotalWithout(MergeTools(a, b), tool);
      TotalWithout(a, tool);
      TotalWithout(b, tool);
    }
  }

  lemma {:induction false} Smaller(tools: map<string, Series>, tool: string)
    requires tool in tools
    ensures |tools - {tool}| < |tools|
  {
    assert tools.Keys == (tools - {tool}).Keys + {tool};
  }

  lemma {:induction false} TotalOfPart(call: Call, series: Series)
    ensures ToolTotal(ToolPart(call, series)) == if call.tool.Some? then |series.outcomes| else 0
  {
    if call.tool.Some? {
      TotalWithout(ToolPart(call, series), call.tool.value);
      assert ToolPart(call, series) - {call.tool.value} == map[];
    }
  }

  function PlainCalls(calls: seq<Call>): nat {
    if calls == [] then 0 else PlainCalls(calls[..|calls| - 1]) + if calls[|calls| - 1].tool.None? then 1 else 0
  }

  lemma {:induction false} SummaryTotal(calls: seq<Call>)
    ensures ToolTotal(Summary(calls).perTool) + PlainCalls(calls) == |calls|
  {
    if calls != [] {
      var shorter, last := calls[..|calls| - 1], calls[|calls| - 1];
      SummaryTotal(shorter);
      SampledIs(last);
      hide ToolTotal, MergeTools, ToolPart, Sampled;
      TotalMerges(Summary(shorter).perTool, OfCall(last).perTool);
      TotalOfPart(last, Sampled(last));
    }
  }

  /** A call without a tool that the global counter has not seen yet. */
  function PlainWaiting(th: Thread): nat {
    if th.Busy? && th.at.BumpGlobal? && th.call.tool.None? then 1 else 0
  }

  /** A tool call that the global counter has seen and the tool's counter has not. */
  function InFlight(th: Thread): nat {
    if th.Busy? && th.call.tool.Some? && !th.at.BumpGlobal? && !th.at.SampleTool? then 1 else 0
  }

  lemma {:induction false} OwedTotal(perTool: map<string, nat>, th: Thread)
    requires Placed(perTool, th)
    ensures |Owed(th).overall.outcomes| + InFlight(th) == ToolTotal(Owed(th).perTool) + PlainWaiting(th)
  {
    hide ToolTotal, ToolPart, Sampled;
    if th.Busy? {
      SampledIs(th.call);
      TotalOfPart(th.call, Sampled(th.call));
      TotalOfPart(th.call, Series(multiset{}, SampleOf(th.call)));
    } else {
      NoTotal();
    }
  }

  lemma {:induction false} NoTotal()
    ensures ToolTotal(map[]) == 0
  {
  }

  lemma {:induction false} AllOwedTotal(perTool: map<string, nat>, threads: seq<Thread>)
    requires forall i :: 0 <= i < |threads| ==> Placed(perTool, threads[i])
    ensures |AllOwed(threads).overall.outcomes| + Tally(threads, InFlight)
      == ToolTotal(AllOwed(threads).perTool) + Tally(threads, PlainWaiting)
  {
    if threads != [] {
      var shorter, last := threads[..|threads| - 1], threads[|threads| - 1];
      AllOwedTotal(perTool, shorter);
      hide Placed, Owed, MergeTools, ToolTotal;
      OwedTotal(perTool, last);
      TotalMerges(AllOwed(shorter).perTool, Owed(last).perTool);
    }
  }

  /** At every step of every schedule, the global request total exceeds the sum of the totals of the
      tools in the map by exactly the tool calls in flight and the plain calls already counted. */
  lemma {:induction false} TotalsGap(n: nat, events: seq<Event>)
    ensures var s := Run(Init(n), events);
      |Observed(s).overall.outcomes| + Tally(s.threads, PlainWaiting)
        == ToolTotal(Observed(s).perTool) + PlainCalls(s.started) + Tally(s.threads, InFlight)
  {
    var s := Run(Init(n), events);
    AlwaysAccounted(n, events);
    AllOwedTotal(s.perTool, s.threads);
    hide Run, Observed, AllOwed, Tally, MergeTools, ToolTotal, Summary, Init;
    SummaryCounts(s.started, "");
    SummaryTotal(s.started);
    TotalMerges(Observed(s).perTool, AllOwed(s.threads).perTool);
  }
}
