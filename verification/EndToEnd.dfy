/** From the concurrency plan, through a protocol run, to the aggregated report. */
module EndToEnd {
  import opened Basics
  import opened Ordering
  import opened Protocol
  import opened Shards
  import opened ControllerSpec
  import opened Network
  import C = ControllerRuns
  import D = DistributedMetrics
  import R = RecorderSpec
  import A = AggregateMeaning
  import S = AggregateSpec
  import T = Totals

  /** The job parameters shared by every prepare frame of one run. */
  datatype Launch = Launch(jobId: string, digest: string, target: string, plan: WorkloadPlan, beat: u64)

  function PlannedShards(l: Launch, names: seq<string>): seq<AgentShard>
    requires |names| <= l.plan.globalConcurrency
  {
    Assign(l.plan.globalConcurrency, names)
  }

  function PlannedPrepares(l: Launch, names: seq<string>): seq<PrepareFrame>
    requires |names| <= l.plan.globalConcurrency
  {
    Prepares(l.jobId, l.digest, l.target, l.plan, PlannedShards(l, names), l.beat)
  }

  /** The names are a usable inventory in its planned, ascending order. */
  ghost predicate PlannedNames(l: Launch, names: seq<string>) {
    0 < |names| <= l.plan.globalConcurrency && Ascending(names)
  }

  lemma {:induction false} PlanMakesNames(l: Launch, inventory: seq<string>)
    requires Plannable(l.plan.globalConcurrency, inventory)
    ensures PlannedNames(l, Sorted(NameSet(inventory))) && |Sorted(NameSet(inventory))| == |inventory|
  {
    NoProblemIff(inventory);
  }

  /** The slot made for the i-th planned name carries the i-th planned frame and shard. */
  lemma {:induction false} PlannedSlot(l: Launch, names: seq<string>, slot: Slot, i: nat)
    requires PlannedNames(l, names) && i < |names|
    requires C.EnrolledFrom(l.jobId, PlannedPrepares(l, names), names[i], slot)
    ensures slot.prepare == PlannedPrepares(l, names)[i] && slot.prepare.shard == PlannedShards(l, names)[i]
  {
    hide Share;
    var ps := PlannedPrepares(l, names);
    var p :| p in ps && p.shard.agentName == names[i] && slot == FreshSlot(p);
    var k :| 0 <= k < |ps| && ps[k] == p;
    AscendingDistinct(names, i, k);
  }

  lemma {:induction false} PlannedPreparesDistinct(l: Launch, names: seq<string>)
    requires PlannedNames(l, names)
    ensures C.DistinctAgents(PlannedPrepares(l, names))
    ensures forall p :: p in PlannedPrepares(l, names) ==> p.jobId == l.jobId && p.shard.agentName in names
  {
    hide Share;
    var ps := PlannedPrepares(l, names);
    forall i, k | 0 <= i < k < |ps| ensures ps[i].shard.agentName != ps[k].shard.agentName {
      LtIrreflexive(names[i]);
      assert Lt(names[i], names[k]);
    }
    forall p | p in ps ensures p.jobId == l.jobId && p.shard.agentName in names {
      var k :| 0 <= k < |ps| && ps[k] == p;
      assert names[k] in names;
    }
  }

  /** The planned slots of a job, in name order. */
  ghost predicate Slotted(j0: Job, names: seq<string>, shards: seq<AgentShard>) {
    && Sorted(j0.agents.Keys) == names && |shards| == |names|
    && forall i :: 0 <= i < |names| ==>
         names[i] in j0.agents && j0.agents[names[i]].prepare.shard == shards[i] && shards[i].agentName == names[i]
  }

  lemma {:induction false} PlannedJob(l: Launch, names: seq<string>)
    requires PlannedNames(l, names)
    ensures NewJob(PlannedPrepares(l, names)).Ok?
    ensures Slotted(NewJob(PlannedPrepares(l, names)).value, names, PlannedShards(l, names))
  {
    hide Sorted, C.DistinctAgents, C.EnrolledFrom, Enrol, Share;
    var ps := PlannedPrepares(l, names);
    PlannedPreparesDistinct(l, names);
    C.EnrolSucceedsIff(l.jobId, ps);
    C.EnrolledSlots(l.jobId, ps);
    assert ps[0] in ps;
    var j := NewJob(ps).value;
    forall i | 0 <= i < |names| ensures names[i] in j.agents && j.agents[names[i]].prepare.shard == PlannedShards(l, names)[i] {
      assert ps[i] in ps && ps[i].shard.agentName == names[i] by {
        PlannedPrepareAt(l, names, i);
      }
      PlannedSlot(l, names, j.agents[names[i]], i);
    }
    forall a | a in j.agents ensures a in names {
      OnlyPlanned(l, names, a, j.agents[a]);
    }
    SortedIs(j.agents.Keys, names);
  }

  lemma {:induction false} PlannedPrepareAt(l: Launch, names: seq<string>, i: nat)
    requires PlannedNames(l, names) && i < |names|
    ensures PlannedPrepares(l, names)[i] in PlannedPrepares(l, names)
    ensures PlannedPrepares(l, names)[i].shard.agentName == names[i]
  {
  }

  lemma {:induction false} OnlyPlanned(l: Launch, names: seq<string>, a: string, slot: Slot)
    requires PlannedNames(l, names) && C.EnrolledFrom(l.jobId, PlannedPrepares(l, names), a, slot)
    ensures a in names
  {
    PlannedPreparesDistinct(l, names);
  }

  lemma {:induction false} SortedIs(keys: set<string>, names: seq<string>)
    requires Ascending(names) && forall a :: a in keys <==> a in names
    ensures Sorted(keys) == names
  {
    AscendingUnique(Sorted(keys), names);
  }

  // ----- the work each agent is given

  function PlannedWork(ps: seq<PrepareFrame>): nat {
    if ps == [] then 0 else PlannedWork(ps[..|ps| - 1]) + ps[|ps| - 1].plan.concurrency
  }

  lemma {:induction false} WorkIsShares(ps: seq<PrepareFrame>, shards: seq<AgentShard>)
    requires |ps| == |shards| && forall i :: 0 <= i < |ps| ==> ps[i].plan.concurrency == shards[i].concurrency
    ensures PlannedWork(ps) == Concurrency(shards)
  {
    if ps != [] {
      var n := |ps| - 1;
      assert forall i :: 0 <= i < n ==> ps[..n][i] == ps[i] && shards[..n][i] == shards[i];
      WorkIsShares(ps[..n], shards[..n]);
    }
  }

  /** The plan of one agent is the whole plan with the agent's share of the concurrency and a seed of its own,
      which gives the plan's seed back. */
  ghost predicate WorksFor(l: Launch, names: seq<string>, i: nat, p: PrepareFrame) {
    && i < |names| && p.shard.agentName == names[i] && p.shard.index == i && p.shard.agentCount == |names|
    && p.jobId == l.jobId && p.configDigest == l.digest && p.target == l.target && p.heartbeatIntervalMs == l.beat
    && p.plan.concurrency == p.shard.concurrency
    && p.plan.concurrency == l.plan.globalConcurrency / |names| + (if i < l.plan.globalConcurrency % |names| then 1 else 0)
    && p.plan.scenario == l.plan.scenario && p.plan.durationMs == l.plan.durationMs && p.plan.patterns == l.plan.patterns
    && Xor(p.plan.seed, i) == l.plan.seed && (i == 0 ==> p.plan.seed == l.plan.seed)
  }

  /** Conservation in what is executed: the plans of the prepare frames add up to the planned concurrency. */
  lemma {:induction false} WorkConserved(l: Launch, names: seq<string>)
    requires PlannedNames(l, names)
    ensures PlannedWork(PlannedPrepares(l, names)) == l.plan.globalConcurrency
    ensures forall i :: 0 <= i < |names| ==> WorksFor(l, names, i, PlannedPrepares(l, names)[i])
  {
    var ps, shards := PlannedPrepares(l, names), PlannedShards(l, names);
    SharesConserve(l.plan.globalConcurrency, names);
    WorkIsShares(ps, shards);
    forall i | 0 <= i < |names| ensures WorksFor(l, names, i, ps[i]) {
      XorTwice(l.plan.seed, i);
      XorZero(l.plan.seed);
      ShareIs(l.plan.globalConcurrency, |names|, i);
      hide Xor, Share;
    }
  }

  lemma {:induction false} PlannedFrame(l: Launch, names: seq<string>, i: nat)
    requires PlannedNames(l, names) && i < |names| && NewJob(PlannedPrepares(l, names)).Ok?
    ensures names[i] in NewJob(PlannedPrepares(l, names)).value.agents
    ensures NewJob(PlannedPrepares(l, names)).value.agents[names[i]].prepare == PlannedPrepares(l, names)[i]
  {
    hide Share, Enrol, C.EnrolledFrom, Ascending;
    var ps := PlannedPrepares(l, names);
    C.EnrolledSlots(l.jobId, ps);
    assert ps[0] in ps;
    PlannedPrepareAt(l, names, i);
    PlannedSlot(l, names, NewJob(ps).value.agents[names[i]], i);
  }

  /** In every reachable state of a planned run, a prepare frame that waits for an agent gives it exactly its
      part of the plan. */
  lemma {:induction false} WorkReceived(l: Launch, names: seq<string>, hellos: map<string, HelloFrame>,
        acts: seq<Action>, i: nat, f: WireFrame)
    requires PlannedNames(l, names) && i < |names|
    requires NewJob(PlannedPrepares(l, names)).Ok? && NewJob(PlannedPrepares(l, names)).value.agents.Keys <= hellos.Keys
    requires var s := Run(Init(NewJob(PlannedPrepares(l, names)).value, hellos), acts);
      names[i] in s.peers && f in s.peers[names[i]].down && f.message.Prepare?
    ensures f.message.prepare == PlannedPrepares(l, names)[i] && WorksFor(l, names, i, f.message.prepare)
  {
    var ps := PlannedPrepares(l, names);
    var a := names[i];
    WorkConserved(l, names);
    PlannedFrame(l, names, i);
    hide Run, Init, NewJob, WorksFor, PlannedPrepares, Ascending;
    var s0 := Init(NewJob(ps).value, hellos);
    InitSafe(ps, hellos);
    RunKeepsSafe(s0, acts);
    InitJob(NewJob(ps).value, hellos);
    Waiting(s0, Run(s0, acts), a, f);
  }

  lemma {:induction false} Waiting(s0: System, s: System, a: string, f: WireFrame)
    requires Safe(s) && Extends(s0, s) && a in s.peers && f in s.peers[a].down && f.message.Prepare?
    requires a in s0.job.agents
    ensures f.message.prepare == s0.job.agents[a].prepare
  {
    assert a in s.job.agents;
    assert Link(s.job.jobId, s.job.readySignature, a, s.job.agents[a], s.peers[a]);
    assert ControllerFrame(s.job.jobId, a, s.job.agents[a], f);
    assert C.SlotKept(s0.job.agents[a], s.job.agents[a]);
  }

  // ----- live sessions behind an open start gate

  /** The readiness report in a log of sent frames, if there is one. */
  function ReadyIn(sent: seq<WireFrame>): Option<ReadyFrame> {
    if sent == [] then None
    else if ReadyIn(sent[..|sent| - 1]).Some? then ReadyIn(sent[..|sent| - 1])
    else if sent[|sent| - 1].message.Ready? then Some(sent[|sent| - 1].message.ready)
    else None
  }

  lemma {:induction false} NoReadyIn(sent: seq<WireFrame>)
    requires CountReady(sent) == 0
    ensures ReadyIn(sent).None? && forall f :: f in sent ==> !f.message.Ready?
  {
    if sent != [] {
      NoReadyIn(sent[..|sent| - 1]);
      assert sent == sent[..|sent| - 1] + [sent[|sent| - 1]];
    }
  }

  lemma {:induction false} OnlyReady(sent: seq<WireFrame>, f: WireFrame)
    requires CountReady(sent) <= 1 && f in sent && f.message.Ready?
    ensures ReadyIn(sent) == Some(f.message.ready)
  {
    var shorter, last := sent[..|sent| - 1], sent[|sent| - 1];
    assert sent == shorter + [last];
    if last.message.Ready? {
      NoReadyIn(shorter);
      assert f == last || f in shorter;
    } else {
      OnlyReady(shorter, f);
    }
  }

  function LiveSessions(peers: map<string, Peer>, names: seq<string>): nat {
    if names == [] then 0
    else
      var last := names[|names| - 1];
      LiveSessions(peers, names[..|names| - 1])
      + if last in peers && ReadyIn(peers[last].sent).Some? then ReadyIn(peers[last].sent).value.liveWorkers else 0
  }

  lemma {:induction false} LiveIsShare(peers: map<string, Peer>, names: seq<string>, shards: seq<AgentShard>)
    requires |names| == |shards|
    requires forall i :: 0 <= i < |names| ==> names[i] in peers && ReadyIn(peers[names[i]].sent).Some?
    requires forall i :: 0 <= i < |names| ==> ReadyIn(peers[names[i]].sent).value.liveWorkers == shards[i].concurrency
    ensures LiveSessions(peers, names) == Concurrency(shards)
  {
    if names != [] {
      var n := |names| - 1;
      assert forall i :: 0 <= i < n ==> names[..n][i] == names[i] && shards[..n][i] == shards[i];
      LiveIsShare(peers, names[..n], shards[..n]);
    }
  }

  /** Whenever any agent of a planned run is running, or has a start frame on its way, the sessions
      that the cohort has reported live number exactly the global concurrency of the plan. */
  lemma {:induction false} LiveSessionsTotal(
      l: Launch, names: seq<string>, hellos: map<string, HelloFrame>, acts: seq<Action>, s: System, a: string)
    requires PlannedNames(l, names)
    requires NewJob(PlannedPrepares(l, names)).Ok? && NewJob(PlannedPrepares(l, names)).value.agents.Keys <= hellos.Keys
    requires s == Run(Init(NewJob(PlannedPrepares(l, names)).value, hellos), acts)
    requires a in s.peers && StartSeen(s.peers[a])
    ensures LiveSessions(s.peers, names) == l.plan.globalConcurrency
  {
    hide NewJob, StartSeen, Share, ReadyIn, Sorted, Run, Init;
    var ps := PlannedPrepares(l, names);
    var shards := PlannedShards(l, names);
    PlannedJob(l, names);
    StartBarrier(ps, hellos, acts, a);
    forall i | 0 <= i < |names|
      ensures names[i] in s.peers && ReadyIn(s.peers[names[i]].sent).Some?
      ensures ReadyIn(s.peers[names[i]].sent).value.liveWorkers == shards[i].concurrency
    {
      EvidenceIntegrity(ps, hellos, acts, names[i]);
      var f :| f in s.peers[names[i]].sent && GoodReady(f, NewJob(ps).value.agents[names[i]], s.job.readySignature.value);
      OnlyReady(s.peers[names[i]].sent, f);
    }
    LiveIsShare(s.peers, names, shards);
    SharesConserve(l.plan.globalConcurrency, names);
  }

  // ----- the aggregated report of a planned run

  /** Evidence that echoes the planned shards in order, under one target version and inventory. */
  ghost predicate Echoes(es: seq<AgentEvidence>, shards: seq<AgentShard>, sig: Signature) {
    && |es| == |shards|
    && forall i :: 0 <= i < |es| ==>
         && es[i].agentName == shards[i].agentName && es[i].shard == shards[i]
         && es[i].targetProtocolVersion == sig.protocolVersion && es[i].toolInventoryHash == sig.inventoryHash
  }

  lemma {:induction false} FoldConcurrency(es: seq<AgentEvidence>, shards: seq<AgentShard>)
    requires |es| == |shards| && forall i :: 0 <= i < |es| ==> es[i].shard == shards[i]
    ensures T.Fold(es).concurrency == Concurrency(shards)
  {
    if es != [] {
      var n := |es| - 1;
      assert forall i :: 0 <= i < n ==> es[..n][i] == es[i] && shards[..n][i] == shards[i];
      FoldConcurrency(es[..n], shards[..n]);
    }
  }

  lemma {:induction false} DistinctSize(es: seq<AgentEvidence>)
    requires forall i, k :: 0 <= i < k < |es| ==> es[i].agentName != es[k].agentName && es[i].shard.index != es[k].shard.index
    ensures |A.Names(es)| == |es| && |A.Indices(es)| == |es|
  {
    if es == [] {
      assert A.Names(es) == {} && A.Indices(es) == {};
    } else {
      var n := |es| - 1;
      var shorter, last := es[..n], es[n];
      assert es == shorter + [last];
      assert forall i :: 0 <= i < n ==> shorter[i] == es[i];
      DistinctSize(shorter);
      A.NamesSnoc(shorter, last);
      assert last.agentName !in A.Names(shorter) && last.shard.index !in A.Indices(shorter);
    }
  }

  lemma {:induction false} EchoesDiffer(l: Launch, names: seq<string>, es: seq<AgentEvidence>, sig: Signature)
    requires PlannedNames(l, names) && Echoes(es, PlannedShards(l, names), sig)
    ensures forall i :: 0 <= i < |es| ==> es[i].agentName == names[i] && es[i].shard.index == i
    ensures |A.Names(es)| == |es| && |A.Indices(es)| == |es|
  {
    hide Share, A.Names, A.Indices;
    assert forall i :: 0 <= i < |es| ==> es[i].agentName == names[i] && es[i].shard.index == i;
    forall i, k | 0 <= i < k < |es| ensures es[i].agentName != es[k].agentName && es[i].shard.index != es[k].shard.index {
      LtIrreflexive(names[i]);
      assert Lt(names[i], names[k]);
    }
    DistinctSize(es);
  }

  lemma {:induction false} EchoesHeaders(l: Launch, names: seq<string>, es: seq<AgentEvidence>, sig: Signature)
    requires PlannedNames(l, names) && Echoes(es, PlannedShards(l, names), sig)
    ensures |es| < U32_LIMIT
    ensures forall e :: e in es ==> A.HeaderOk(e, S.Expect(|es|, sig.protocolVersion, sig.inventoryHash))
  {
    hide Share;
    SharesConserve(l.plan.globalConcurrency, names);
    forall e | e in es ensures A.HeaderOk(e, S.Expect(|es|, sig.protocolVersion, sig.inventoryHash)) {
      var i :| 0 <= i < |es| && es[i] == e;
    }
  }

  lemma {:induction false} EchoesConcurrency(l: Launch, names: seq<string>, es: seq<AgentEvidence>, sig: Signature)
    requires PlannedNames(l, names) && Echoes(es, PlannedShards(l, names), sig)
    ensures T.Fold(es).concurrency == l.plan.globalConcurrency
  {
    hide Share, T.Fold;
    SharesConserve(l.plan.globalConcurrency, names);
    FoldConcurrency(es, PlannedShards(l, names));
  }

  /** What a successful aggregation reports about names and concurrency. */
  lemma {:induction false} ReportedHeader(es: seq<AgentEvidence>)
    requires S.Aggregate(es).Ok?
    ensures S.Aggregate(es).value.globalConcurrency == T.Fold(es).concurrency
    ensures S.Aggregate(es).value.agentNames == Sorted(A.Names(es))
  {
    hide S.Aggregate, A.Acceptable, T.Fold, Sorted, A.MetricsOf;
    A.AggregateIff(es);
    assert A.OutlineOf(S.Aggregate(es).value) == A.Expected(es);
  }

  /** Evidence echoing the plan passes every identity check, and the merged concurrency is the plan's. */
  lemma {:induction false} EchoedPlanIsAccepted(l: Launch, names: seq<string>, es: seq<AgentEvidence>, sig: Signature)
    requires PlannedNames(l, names) && Echoes(es, PlannedShards(l, names), sig)
    ensures |es| < U32_LIMIT && A.IdentitiesOk(es, S.Expect(|es|, sig.protocolVersion, sig.inventoryHash))
    ensures T.Fold(es).concurrency == l.plan.globalConcurrency
    ensures S.Aggregate(es).Ok? <==> A.Mergeable(es)
    ensures S.Aggregate(es).Ok? ==> S.Aggregate(es).value.globalConcurrency == l.plan.globalConcurrency
    ensures S.Aggregate(es).Ok? ==> S.Aggregate(es).value.agentNames == names
  {
    hide Share, A.GlobalOk, A.ScenarioFits, A.ToolsOk, A.Concludable, T.Fold, S.Aggregate, A.Names, A.Indices, Sorted, A.HeaderOk;
    EchoesDiffer(l, names, es, sig);
    EchoesHeaders(l, names, es, sig);
    EchoesConcurrency(l, names, es, sig);
    A.AggregateIff(es);
    if S.Aggregate(es).Ok? {
      ReportedHeader(es);
      NamesAre(es, names);
      SortedIs(A.Names(es), names);
    }
  }

  lemma {:induction false} NamesAre(es: seq<AgentEvidence>, names: seq<string>)
    requires |es| == |names| && forall i :: 0 <= i < |es| ==> es[i].agentName == names[i]
    ensures forall n :: n in A.Names(es) <==> n in names
  {
    forall n ensures n in A.Names(es) <==> n in names {
      if n in names {
        var i :| 0 <= i < |names| && names[i] == n;
        assert es[i] in es;
      }
    }
  }

  function RangeSet(n: nat): (r: set<u32>)
    requires n < U32_LIMIT
    ensures |r| == n && forall i: u32 :: i in r <==> i < n
  {
    if n == 0 then {} else RangeSet(n - 1) + {n - 1}
  }

  lemma {:induction false} FullSubset(a: set<u32>, b: set<u32>)
    requires a <= b && |a| == |b|
    ensures a == b
  {
    var extra := b - a;
    assert b == a + extra;
    assert |b| == |a| + |extra|;
    assert extra == {};
  }

  /** Conversely, evidence that aggregates has shard indices exactly 0 to n-1, whoever produced it. */
  lemma {:induction false} AcceptedIndicesAreComplete(es: seq<AgentEvidence>)
    requires S.Aggregate(es).Ok?
    ensures |es| < U32_LIMIT && A.Indices(es) == RangeSet(|es|)
  {
    hide S.Aggregate, T.Fold;
    A.AggregateIff(es);
    forall i | i in A.Indices(es) ensures i in RangeSet(|es|) {
      var e :| e in es && e.shard.index == i;
    }
    FullSubset(A.Indices(es), RangeSet(|es|));
  }

  /** The evidence the controller hands over, in ascending name order. */
  function FinalReport(j: Job, names: seq<string>): (es: seq<AgentEvidence>)
    requires forall n :: n in names ==> n in j.agents && j.agents[n].finalEvidence.Some?
    ensures |es| == |names| && forall i :: 0 <= i < |names| ==> es[i] == j.agents[names[i]].finalEvidence.value
  {
    seq(|names|, i requires 0 <= i < |names| => assert names[i] in names; j.agents[names[i]].finalEvidence.value)
  }

  /** Every final evidence repeats the shard its agent was prepared with and the cohort signature. */
  ghost predicate AllEcho(j: Job) {
    j.readySignature.Some? && forall a :: a in j.agents && j.agents[a].finalEvidence.Some? ==>
      && j.agents[a].finalEvidence.value.shard == j.agents[a].prepare.shard
      && j.agents[a].finalEvidence.value.targetProtocolVersion == j.readySignature.value.protocolVersion
      && j.agents[a].finalEvidence.value.toolInventoryHash == j.readySignature.value.inventoryHash
  }

  /** The controller holds evidence of every planned name, and it echoes the plan. */
  ghost predicate HandedOver(j: Job, names: seq<string>, shards: seq<AgentShard>) {
    && j.readySignature.Some? && Sorted(j.agents.Keys) == names
    && (forall n :: n in names ==> n in j.agents && j.agents[n].finalEvidence.Some?)
    && Echoes(FinalReport(j, names), shards, j.readySignature.value)
  }

  /** Every identity check of the aggregation passes, so that there is a report exactly if the measured
      scopes and totals allow one; it names the planned agents and merges to the planned concurrency. */
  ghost predicate Accounted(l: Launch, names: seq<string>, es: seq<AgentEvidence>, sig: Signature) {
    && |es| < U32_LIMIT && A.IdentitiesOk(es, S.Expect(|es|, sig.protocolVersion, sig.inventoryHash))
    && T.Fold(es).concurrency == l.plan.globalConcurrency
    && (S.Aggregate(es).Ok? <==> A.Mergeable(es))
    && (S.Aggregate(es).Ok? ==>
          S.Aggregate(es).value.globalConcurrency == l.plan.globalConcurrency && S.Aggregate(es).value.agentNames == names)
  }

  lemma {:induction false} EchoesAccounted(l: Launch, names: seq<string>, es: seq<AgentEvidence>, sig: Signature)
    requires PlannedNames(l, names) && Echoes(es, PlannedShards(l, names), sig)
    ensures Accounted(l, names, es, sig)
  {
    EchoedPlanIsAccepted(l, names, es, sig);
  }

  /** A run from a job with these slots hands over, once every agent has finished. */
  lemma {:induction false} RunHandsOver(ps: seq<PrepareFrame>, names: seq<string>, shards: seq<AgentShard>,
        hellos: map<string, HelloFrame>, acts: seq<Action>, j: Job)
    requires NewJob(ps).Ok? && NewJob(ps).value.agents.Keys <= hellos.Keys && Slotted(NewJob(ps).value, names, shards)
    requires j == Run(Init(NewJob(ps).value, hellos), acts).job
    requires AllEcho(j) && forall a :: a in j.agents ==> j.agents[a].phase.IsFinished?
    ensures HandedOver(j, names, shards)
  {
    hide *;
    var s0 := Init(NewJob(ps).value, hellos);
    InitSafe(ps, hellos);
    RunKeepsSafe(s0, acts);
    InitJob(NewJob(ps).value, hellos);
    HandOver(names, shards, s0, Run(s0, acts));
  }

  lemma {:induction false} PlannedRunHandsOver(l: Launch, names: seq<string>, hellos: map<string, HelloFrame>,
        acts: seq<Action>, j: Job)
    requires PlannedNames(l, names)
    requires NewJob(PlannedPrepares(l, names)).Ok? && NewJob(PlannedPrepares(l, names)).value.agents.Keys <= hellos.Keys
    requires j == Run(Init(NewJob(PlannedPrepares(l, names)).value, hellos), acts).job
    requires AllEcho(j) && forall a :: a in j.agents ==> j.agents[a].phase.IsFinished?
    ensures HandedOver(j, names, PlannedShards(l, names))
  {
    var ps := PlannedPrepares(l, names);
    var shards := PlannedShards(l, names);
    hide *;
    PlannedJob(l, names);
    RunHandsOver(ps, names, shards, hellos, acts, j);
  }

  /** End to end: plan, protocol run and report. When every agent of a planned run has finished and
      the evidence echoes what the controller assigned and stored, the hand-over passes every
      identity check of the aggregation and accounts for exactly the planned concurrency. */
  lemma {:induction false} PlannedRunReports(l: Launch, names: seq<string>, hellos: map<string, HelloFrame>,
        acts: seq<Action>, j: Job)
    requires PlannedNames(l, names)
    requires NewJob(PlannedPrepares(l, names)).Ok? && NewJob(PlannedPrepares(l, names)).value.agents.Keys <= hellos.Keys
    requires j == Run(Init(NewJob(PlannedPrepares(l, names)).value, hellos), acts).job
    requires AllEcho(j) && forall a :: a in j.agents ==> j.agents[a].phase.IsFinished?
    ensures HandedOver(j, names, PlannedShards(l, names))
    ensures Accounted(l, names, FinalReport(j, names), j.readySignature.value)
  {
    var shards := PlannedShards(l, names);
    hide *;
    PlannedRunHandsOver(l, names, hellos, acts, j);
    HandedOverEchoes(j, names, shards);
    EchoesAccounted(l, names, FinalReport(j, names), j.readySignature.value);
  }

  /** Name by name, the stored evidence reports what that agent's own calls amount to. */
  ghost predicate EvidenceReports(j: Job, names: seq<string>, parts: seq<seq<R.Call>>) {
    && |parts| == |names|
    && forall i :: 0 <= i < |names| && names[i] in j.agents && j.agents[names[i]].finalEvidence.Some? ==>
         D.Countable(parts[i]) && D.Reports(j.agents[names[i]].finalEvidence.value, R.Summary(parts[i]))
  }

  lemma {:induction false} HandedOverReports(j: Job, names: seq<string>, shards: seq<AgentShard>, parts: seq<seq<R.Call>>)
    requires HandedOver(j, names, shards) && EvidenceReports(j, names, parts)
    ensures D.AllReport(FinalReport(j, names), parts)
  {
    hide Echoes, Sorted, D.Countable, D.Reports, R.Summary;
    forall i | 0 <= i < |names| ensures names[i] in j.agents && j.agents[names[i]].finalEvidence.Some? {
      assert names[i] in names;
    }
  }

  /** The whole way: when, in addition, every agent's evidence reports what its own calls amount to, the
      report of the planned run exists exactly if the totals are reportable, and it is the plan's agents and
      concurrency with the samples, counters and tools of one recorder fed every call. */
  lemma {:induction false} PlannedRunIsReported(l: Launch, names: seq<string>, hellos: map<string, HelloFrame>,
        acts: seq<Action>, j: Job, parts: seq<seq<R.Call>>, calls: seq<R.Call>)
    requires PlannedNames(l, names)
    requires NewJob(PlannedPrepares(l, names)).Ok? && NewJob(PlannedPrepares(l, names)).value.agents.Keys <= hellos.Keys
    requires j == Run(Init(NewJob(PlannedPrepares(l, names)).value, hellos), acts).job
    requires AllEcho(j) && forall a :: a in j.agents ==> j.agents[a].phase.IsFinished?
    requires EvidenceReports(j, names, parts)
    requires multiset(calls) == multiset(D.Joined(parts))
    ensures HandedOver(j, names, PlannedShards(l, names))
    ensures S.Aggregate(FinalReport(j, names)).Ok? <==> D.Reportable(FinalReport(j, names), parts)
    ensures S.Aggregate(FinalReport(j, names)).Ok? ==>
      var report := S.Aggregate(FinalReport(j, names)).value;
      && report.agentNames == names && report.globalConcurrency == l.plan.globalConcurrency
      && report.metrics == A.MetricsOf(R.Summary(calls).overall)
      && report.perTool == map t | t in R.Summary(calls).perTool :: A.MetricsOf(R.Summary(calls).perTool[t])
  {
    var shards := PlannedShards(l, names);
    hide *;
    PlannedRunHandsOver(l, names, hellos, acts, j);
    HandedOverEchoes(j, names, shards);
    HandedOverReports(j, names, shards, parts);
    EchoesReported(l, names, FinalReport(j, names), j.readySignature.value, parts, calls);
  }

  lemma {:induction false} EchoesReported(l: Launch, names: seq<string>, es: seq<AgentEvidence>, sig: Signature,
        parts: seq<seq<R.Call>>, calls: seq<R.Call>)
    requires PlannedNames(l, names) && Echoes(es, PlannedShards(l, names), sig)
    requires D.AllReport(es, parts) && multiset(calls) == multiset(D.Joined(parts))
    ensures S.Aggregate(es).Ok? <==> D.Reportable(es, parts)
    ensures S.Aggregate(es).Ok? ==>
      var report := S.Aggregate(es).value;
      && report.agentNames == names && report.globalConcurrency == l.plan.globalConcurrency
      && report.metrics == A.MetricsOf(R.Summary(calls).overall)
      && report.perTool == map t | t in R.Summary(calls).perTool :: A.MetricsOf(R.Summary(calls).perTool[t])
  {
    assert 0 < |es| && es[0].targetProtocolVersion == sig.protocolVersion && es[0].toolInventoryHash == sig.inventoryHash;
    hide *;
    EchoedPlanIsAccepted(l, names, es, sig);
    D.ReportExistsIff(es, parts);
    if S.Aggregate(es).Ok? {
      D.DistributedEqualsLocal(es, parts, calls);
    }
  }

  lemma {:induction false} HandedOverEchoes(j: Job, names: seq<string>, shards: seq<AgentShard>)
    requires HandedOver(j, names, shards)
    ensures j.readySignature.Some? && forall n :: n in names ==> n in j.agents && j.agents[n].finalEvidence.Some?
    ensures Echoes(FinalReport(j, names), shards, j.readySignature.value)
  {
    hide Echoes, FinalReport, Sorted;
  }

  /** What one finished, echoing agent hands over. */
  lemma {:induction false} HandOverOne(j0: Job, j: Job, n: string)
    requires n in j0.agents && n in j.agents && C.SlotInvariant(j, n, j.agents[n]) && C.SlotKept(j0.agents[n], j.agents[n])
    requires AllEcho(j) && j.readySignature.Some? && j.agents[n].phase.IsFinished?
    ensures j.agents[n].finalEvidence.Some?
    ensures var e := j.agents[n].finalEvidence.value;
      && e.agentName == n && e.shard == j0.agents[n].prepare.shard
      && e.targetProtocolVersion == j.readySignature.value.protocolVersion
      && e.toolInventoryHash == j.readySignature.value.inventoryHash
  {
  }

  lemma {:induction false} HandOver(names: seq<string>, shards: seq<AgentShard>, s0: System, s: System)
    requires Safe(s) && Extends(s0, s) && Slotted(s0.job, names, shards)
    requires AllEcho(s.job) && forall a :: a in s.job.agents ==> s.job.agents[a].phase.IsFinished?
    ensures HandedOver(s.job, names, shards)
  {
    hide Slotted, HandedOver, Link, AllEcho;
    assert s.job.agents.Keys == s0.job.agents.Keys && s.job.readySignature.Some?;
    assert forall n :: n in s.job.agents ==> C.SlotInvariant(s.job, n, s.job.agents[n]);
    assert forall n :: n in s.job.agents ==> C.SlotKept(s0.job.agents[n], s.job.agents[n]);
    HandOverAll(names, shards, s0.job, s.job);
  }

  lemma {:induction false} HandOverAll(names: seq<string>, shards: seq<AgentShard>, j0: Job, j: Job)
    requires j.agents.Keys == j0.agents.Keys && Slotted(j0, names, shards)
    requires AllEcho(j) && j.readySignature.Some? && forall a :: a in j.agents ==> j.agents[a].phase.IsFinished?
    requires forall n :: n in j.agents ==> C.SlotInvariant(j, n, j.agents[n]) && C.SlotKept(j0.agents[n], j.agents[n])
    ensures HandedOver(j, names, shards)
  {
    hide Sorted, C.SlotInvariant, C.SlotKept, AllEcho, Ascending, Lt;
    forall n | n in names ensures n in j.agents && j.agents[n].finalEvidence.Some? {
      var i :| 0 <= i < |names| && names[i] == n;
      HandOverOne(j0, j, n);
    }
    forall i | 0 <= i < |names|
      ensures var e := FinalReport(j, names)[i];
        && e.agentName == shards[i].agentName && e.shard == shards[i]
        && e.targetProtocolVersion == j.readySignature.value.protocolVersion
        && e.toolInventoryHash == j.readySignature.value.inventoryHash
    {
      HandOverOne(j0, j, names[i]);
    }
  }

  lemma {:induction false} InitJob(job: Job, hellos: map<string, HelloFrame>)
    requires job.agents.Keys <= hellos.Keys
    ensures Init(job, hellos).job == job
  {
  }
}
