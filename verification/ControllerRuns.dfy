/** What the controller keeps over every run of its operations, whatever frames arrive. */
module ControllerRuns {
  import opened Basics
  import opened Ordering
  import opened Protocol
  import opened ControllerSpec

  datatype Command =
    | Deliver(agent: string, frame: WireFrame)
    | Release(startAfterMs: u64)
    | Abort(reason: string)

  function Apply(j: Job, c: Command): Job {
    match c
    case Deliver(agent, frame) => Accept(j, agent, frame)
    case Release(_) => StartAll(j)
    case Abort(_) => CancelAll(j)
  }

  function Run(j: Job, cs: seq<Command>): Job {
    if cs == [] then j else Apply(Run(j, cs[..|cs| - 1]), cs[|cs| - 1])
  }

  // ----- one step

  /** What every operation keeps of every agent. */
  predicate SlotKept(before: Slot, after: Slot) {
    && after.prepare == before.prepare
    && (after.phase == before.phase || before.phase.Rank() < after.phase.Rank())
    && (before.phase.Terminal() ==> after == before)
    && (before.finalEvidence.Some? ==> after.finalEvidence == before.finalEvidence)
  }

  lemma {:induction false} MessageKeeps(jobId: string, sig: Option<Signature>, agent: string, slot: Slot,
        m: WireMessage)
    requires slot.finalEvidence.Some? ==> slot.phase.IsFinished?
    ensures var step := OnMessage(jobId, sig, agent, slot, m);
      && SlotKept(slot, step.slot)
      && (step.slot.finalEvidence.Some? ==> step.slot.phase.IsFinished?)
      && (step.reply.Err? && !step.slot.phase.IsFailed? ==> step.slot == slot)
      && (sig.Some? ==> step.signature == sig)
      && (step.signature != sig ==> step.slot.phase.IsReady?)
  {
  }

  /** Whether the controller takes a frame, as one condition on the agent's phase and the frame: in
      particular a cancelling agent can only acknowledge or fail, and a terminal one is not heard. */
  predicate Acceptable(jobId: string, sig: Option<Signature>, agent: string, slot: Slot, m: WireMessage) {
    (slot.phase.AwaitingHello? && m.Hello? && HelloProblem(agent, m.hello, slot.prepare).None?)
    || (m.JobId() == Some(jobId) && (
         (m.Ready? && slot.phase.Preparing? && m.ready.agentName == agent && FullyReady(m.ready, slot.prepare.shard)
          && (sig.Some? ==> SignatureOf(m.ready) == sig.value))
         || (m.Heartbeat? && (slot.phase.Preparing? || slot.phase.IsReady? || slot.phase.Running?))
         || (m.Progress? && slot.phase.Running? && EvidenceNames(agent, m.progress.evidence))
         || (m.Finished? && slot.phase.Running? && EvidenceNames(agent, m.finished.evidence))
         || (m.Cancelled? && slot.phase.Cancelling?)
         || (m.Failed? && !slot.phase.Terminal())))
  }

  lemma {:induction false} AcceptedIff(jobId: string, sig: Option<Signature>, agent: string, slot: Slot, m: WireMessage)
    ensures OnMessage(jobId, sig, agent, slot, m).reply.Ok? <==> Acceptable(jobId, sig, agent, slot, m)
  {
  }

  /** Frames of one agent never touch another one. */
  lemma {:induction false} DeliveryIsLocal(j: Job, agent: string, frame: WireFrame, other: string)
    requires other != agent
    ensures other in Accept(j, agent, frame).agents <==> other in j.agents
    ensures other in j.agents ==> Accept(j, agent, frame).agents[other] == j.agents[other]
  {
  }

  lemma {:induction false} DeliveryKeepsOthers(j: Job, agent: string, frame: WireFrame)
    ensures forall b :: b in j.agents && b != agent ==>
      b in Accept(j, agent, frame).agents && Accept(j, agent, frame).agents[b] == j.agents[b]
  {
  }

  // ----- the invariant

  predicate SlotInvariant(j: Job, name: string, slot: Slot) {
    && slot.prepare.shard.agentName == name
    && slot.prepare.jobId == j.jobId
    && (slot.finalEvidence.Some? <==> slot.phase.IsFinished?)
    && (slot.finalEvidence.Some? ==> EvidenceNames(name, slot.finalEvidence.value))
    && (slot.latestProgress.Some? ==> EvidenceNames(name, slot.latestProgress.value.evidence))
    && (slot.failure.Some? ==> slot.phase.IsFailed? && slot.failure.value.jobId == j.jobId)
    && (slot.phase.ReadyAccepted() ==> j.readySignature.Some?)
  }

  ghost predicate Invariant(j: Job) {
    && j.agents.Keys != {}
    && forall a :: a in j.agents ==> SlotInvariant(j, a, j.agents[a])
  }

  ghost predicate EnrolledFrom(jobId: string, prepares: seq<PrepareFrame>, name: string, slot: Slot) {
    exists p :: p in prepares && p.shard.agentName == name && p.jobId == jobId && slot == FreshSlot(p)
  }

  ghost predicate DistinctAgents(prepares: seq<PrepareFrame>) {
    forall i, k :: 0 <= i < k < |prepares| ==> prepares[i].shard.agentName != prepares[k].shard.agentName
  }

  lemma {:induction false} EnrolledSlots(jobId: string, prepares: seq<PrepareFrame>)
    requires Enrol(jobId, prepares).Ok?
    ensures forall a :: a in Enrol(jobId, prepares).value ==>
      EnrolledFrom(jobId, prepares, a, Enrol(jobId, prepares).value[a])
    ensures forall p :: p in prepares ==> p.shard.agentName in Enrol(jobId, prepares).value
    ensures |Enrol(jobId, prepares).value| == |prepares|
  {
    if prepares != [] {
      var shorter, last := prepares[..|prepares| - 1], prepares[|prepares| - 1];
      assert prepares == shorter + [last];
      EnrolledSlots(jobId, shorter);
      var m := Enrol(jobId, shorter).value;
      forall a | a in Enrol(jobId, prepares).value
        ensures EnrolledFrom(jobId, prepares, a, Enrol(jobId, prepares).value[a])
      {
        if a == last.shard.agentName {
          assert last in prepares;
        } else {
          assert EnrolledFrom(jobId, shorter, a, m[a]);
        }
      }
    }
  }

  lemma {:induction false} DistinctExtends(shorter: seq<PrepareFrame>, last: PrepareFrame)
    ensures DistinctAgents(shorter + [last]) <==>
      DistinctAgents(shorter) && forall p :: p in shorter ==> p.shard.agentName != last.shard.agentName
  {
    var all := shorter + [last];
    if DistinctAgents(all) {
      assert forall i :: 0 <= i < |shorter| ==> all[i] == shorter[i];
      assert all[|shorter|] == last;
    }
  }

  /** A job is accepted exactly when the cohort is non-empty, one job id is shared and names are unique. */
  lemma {:induction false} EnrolSucceedsIff(jobId: string, prepares: seq<PrepareFrame>)
    ensures Enrol(jobId, prepares).Ok? <==>
      DistinctAgents(prepares) && forall p :: p in prepares ==> p.jobId == jobId
  {
    if prepares != [] {
      var n := |prepares| - 1;
      var shorter, last := prepares[..n], prepares[n];
      assert prepares == shorter + [last];
      EnrolSucceedsIff(jobId, shorter);
      DistinctExtends(shorter, last);
      if Enrol(jobId, shorter).Ok? {
        EnrolledSlots(jobId, shorter);
        var m := Enrol(jobId, shorter).value;
        if last.shard.agentName in m {
          assert EnrolledFrom(jobId, shorter, last.shard.agentName, m[last.shard.agentName]);
        }
      }
    }
  }

  predicate SeenBefore(prepares: seq<PrepareFrame>, i: nat)
    requires i < |prepares|
  {
    exists k :: 0 <= k < i && prepares[k].shard.agentName == prepares[i].shard.agentName
  }

  lemma {:induction false} FrameRefused(jobId: string, prepares: seq<PrepareFrame>, i: nat)
    requires i < |prepares| && Enrol(jobId, prepares[..i]).Ok?
    ensures prepares[i].jobId != jobId ==> Enrol(jobId, prepares) == Err(JobMismatch(jobId, prepares[i].jobId))
    ensures prepares[i].jobId == jobId && prepares[i].shard.agentName in Enrol(jobId, prepares[..i]).value ==>
      Enrol(jobId, prepares) == Err(DuplicateAgent(prepares[i].shard.agentName))
  {
    assert prepares[..i + 1][..i] == prepares[..i];
    if Enrol(jobId, prepares[..i + 1]).Err? {
      EnrolStopsAtFirstError(jobId, prepares, i + 1);
    }
  }

  /** Nobody, or the first frame of another job or of a name seen before, is what a cohort is refused for. */
  lemma {:induction false} RefusedCohort(prepares: seq<PrepareFrame>, i: nat)
    requires i < |prepares| && DistinctAgents(prepares[..i])
    requires forall k :: 0 <= k < i ==> prepares[k].jobId == prepares[0].jobId
    ensures NewJob([]) == Err(EmptyCohort)
    ensures prepares[i].jobId != prepares[0].jobId ==> NewJob(prepares) == Err(JobMismatch(prepares[0].jobId, prepares[i].jobId))
    ensures prepares[i].jobId == prepares[0].jobId && SeenBefore(prepares, i) ==>
      NewJob(prepares) == Err(DuplicateAgent(prepares[i].shard.agentName))
  {
    hide Enrol, EnrolledFrom, DistinctAgents;
    var jobId := prepares[0].jobId;
    EnrolSucceedsIff(jobId, prepares[..i]);
    EnrolledSlots(jobId, prepares[..i]);
    FrameRefused(jobId, prepares, i);
    if SeenBefore(prepares, i) {
      var k :| 0 <= k < i && prepares[k].shard.agentName == prepares[i].shard.agentName;
      assert prepares[k] in prepares[..i];
    }
  }

  /** Every agent starts out waited for, with its own prepare frame and nothing stored. */
  lemma {:induction false} NewSlots(prepares: seq<PrepareFrame>, a: string)
    requires NewJob(prepares).Ok? && a in NewJob(prepares).value.agents
    ensures var j := NewJob(prepares).value;
      && j.jobId == prepares[0].jobId && j.readySignature == None
      && j.agents[a].prepare in prepares && j.agents[a].prepare.shard.agentName == a
      && j.agents[a] == Slot(AwaitingHello, j.agents[a].prepare, None, None, None)
  {
    EnrolledSlots(prepares[0].jobId, prepares);
    assert EnrolledFrom(prepares[0].jobId, prepares, a, NewJob(prepares).value.agents[a]);
  }

  lemma {:induction false} NewJobInvariant(prepares: seq<PrepareFrame>)
    requires NewJob(prepares).Ok?
    ensures Invariant(NewJob(prepares).value)
    ensures |NewJob(prepares).value.agents| == |prepares|
    ensures forall a :: a in NewJob(prepares).value.agents ==> NewJob(prepares).value.agents[a].phase.AwaitingHello?
  {
    var j := NewJob(prepares).value;
    EnrolledSlots(j.jobId, prepares);
    assert prepares[0] in prepares;
    assert prepares[0].shard.agentName in j.agents;
    forall a | a in j.agents ensures SlotInvariant(j, a, j.agents[a]) && j.agents[a].phase.AwaitingHello? {
      assert EnrolledFrom(j.jobId, prepares, a, j.agents[a]);
    }
  }

  lemma {:induction false} MessageInvariant(j: Job, agent: string, m: WireMessage)
    requires agent in j.agents && SlotInvariant(j, agent, j.agents[agent])
    ensures var step := AcceptStep(j, agent, m);
      SlotInvariant(Job(j.jobId, j.agents[agent := step.slot], step.signature), agent, step.slot)
  {
  }

  lemma {:induction false} ApplyInvariant(j: Job, c: Command)
    requires Invariant(j)
    ensures Invariant(Apply(j, c)) && Apply(j, c).agents.Keys == j.agents.Keys && Apply(j, c).jobId == j.jobId
    ensures j.readySignature.Some? ==> Apply(j, c).readySignature == j.readySignature
    ensures forall a :: a in j.agents ==> SlotKept(j.agents[a], Apply(j, c).agents[a])
  {
    match c
    case Deliver(agent, frame) =>
      if frame.protocol == WIRE_PROTOCOL && agent in j.agents {
        MessageInvariant(j, agent, frame.message);
        MessageKeeps(j.jobId, j.readySignature, agent, j.agents[agent], frame.message);
        OthersKeepInvariant(j, agent, AcceptStep(j, agent, frame.message));
      }
    case Release(_) =>
      StartInvariant(j);
    case Abort(_) =>
      CancelInvariant(j);
  }

  lemma {:induction false} OthersKeepInvariant(j: Job, agent: string, step: SlotStep)
    requires Invariant(j) && agent in j.agents
    requires j.readySignature.Some? ==> step.signature == j.readySignature
    requires SlotInvariant(Job(j.jobId, j.agents[agent := step.slot], step.signature), agent, step.slot)
    ensures Invariant(Job(j.jobId, j.agents[agent := step.slot], step.signature))
    ensures j.agents[agent := step.slot].Keys == j.agents.Keys
  {
    var after := Job(j.jobId, j.agents[agent := step.slot], step.signature);
    assert agent in after.agents.Keys;
    forall a | a in after.agents ensures SlotInvariant(after, a, after.agents[a]) {
      if a != agent {
        assert SlotInvariant(j, a, j.agents[a]);
      }
    }
  }

  lemma {:induction false} StartInvariant(j: Job)
    requires Invariant(j)
    ensures Invariant(StartAll(j)) && StartAll(j).agents.Keys == j.agents.Keys
    ensures forall a :: a in j.agents ==> SlotKept(j.agents[a], StartAll(j).agents[a])
  {
    var after := StartAll(j);
    assert after.agents.Keys == j.agents.Keys;
    forall a | a in j.agents
      ensures SlotInvariant(after, a, after.agents[a]) && SlotKept(j.agents[a], after.agents[a])
    {
      assert SlotInvariant(j, a, j.agents[a]);
    }
  }

  lemma {:induction false} CancelInvariant(j: Job)
    requires Invariant(j)
    ensures Invariant(CancelAll(j)) && CancelAll(j).agents.Keys == j.agents.Keys
    ensures forall a :: a in j.agents ==> SlotKept(j.agents[a], CancelAll(j).agents[a])
  {
    var after := CancelAll(j);
    assert after.agents.Keys == j.agents.Keys;
    forall a | a in j.agents
      ensures SlotInvariant(after, a, after.agents[a]) && SlotKept(j.agents[a], after.agents[a])
    {
      assert SlotInvariant(j, a, j.agents[a]);
    }
  }

  // ----- whole runs

  /** Along any run the invariant holds, the signature never changes once set, phases only
      rise, terminal slots and final evidence are frozen. */
  lemma {:induction false} RunKeeps(j: Job, cs: seq<Command>)
    requires Invariant(j)
    ensures Invariant(Run(j, cs)) && Run(j, cs).agents.Keys == j.agents.Keys && Run(j, cs).jobId == j.jobId
    ensures j.readySignature.Some? ==> Run(j, cs).readySignature == j.readySignature
    ensures forall a :: a in j.agents ==> SlotKept(j.agents[a], Run(j, cs).agents[a])
  {
    if cs != [] {
      var shorter, last := cs[..|cs| - 1], cs[|cs| - 1];
      RunKeeps(j, shorter);
      ApplyInvariant(Run(j, shorter), last);
    }
  }

  lemma {:induction false} RunSplits(j: Job, cs: seq<Command>, k: nat)
    requires k <= |cs|
    ensures Run(j, cs) == Run(Run(j, cs[..k]), cs[k..])
  {
    if k == |cs| {
      assert cs[..k] == cs;
    } else {
      var n := |cs| - 1;
      RunSplits(j, cs[..n], k);
      assert cs[..n][..k] == cs[..k];
      assert cs[..n][k..] == cs[k..][..n - k];
    }
  }

  /** Nothing after the first `k` operations undoes what `RunKeeps` protects. */
  lemma {:induction false} LaterKeeps(j: Job, cs: seq<Command>, k: nat)
    requires Invariant(j) && k <= |cs|
    ensures Invariant(Run(j, cs[..k])) && Run(j, cs[..k]).agents.Keys == Run(j, cs).agents.Keys == j.agents.Keys
    ensures Run(j, cs[..k]).readySignature.Some? ==> Run(j, cs).readySignature == Run(j, cs[..k]).readySignature
    ensures forall a :: a in j.agents ==> SlotKept(Run(j, cs[..k]).agents[a], Run(j, cs).agents[a])
  {
    RunKeeps(j, cs[..k]);
    RunSplits(j, cs, k);
    RunKeeps(Run(j, cs[..k]), cs[k..]);
  }

  /** A cohort that is terminal stays so, with every agent in the phase it had, and a failure stays too. */
  lemma {:induction false} VerdictsStay(j: Job, cs: seq<Command>, k: nat)
    requires Invariant(j) && k <= |cs|
    ensures AllTerminal(Run(j, cs[..k])) ==>
      && AllTerminal(Run(j, cs))
      && forall a :: a in j.agents ==>
           a in Run(j, cs).agents && a in Run(j, cs[..k]).agents
           && Run(j, cs).agents[a].phase == Run(j, cs[..k]).agents[a].phase
    ensures HasFailure(Run(j, cs[..k])) ==> HasFailure(Run(j, cs))
  {
    LaterKeeps(j, cs, k);
    hide Run, Invariant;
    var before, after := Run(j, cs[..k]), Run(j, cs);
    assert forall a :: a in j.agents.Keys <==> a in before.agents.Keys;
    assert forall a :: a in j.agents.Keys <==> a in after.agents.Keys;
    if HasFailure(before) {
      var a :| a in before.agents && before.agents[a].phase.IsFailed?;
      assert SlotKept(before.agents[a], after.agents[a]);
    }
  }

  // ----- what an accepted readiness means

  /** This operation delivers a full readiness report of the agent, carrying the signature. */
  predicate ReportsReady(c: Command, name: string, slot: Slot, jobId: string, sig: Signature) {
    && c.Deliver? && c.agent == name && c.frame.protocol == WIRE_PROTOCOL && c.frame.message.Ready?
    && c.frame.message.ready.jobId == jobId
    && c.frame.message.ready.agentName == name
    && FullyReady(c.frame.message.ready, slot.prepare.shard)
    && SignatureOf(c.frame.message.ready) == sig
  }

  ghost predicate HasReported(cs: seq<Command>, name: string, slot: Slot, jobId: string, sig: Signature) {
    exists c :: c in cs && ReportsReady(c, name, slot, jobId, sig)
  }

  lemma {:induction false} ReadyMessageReports(jobId: string, sig: Option<Signature>, a: string, slot: Slot,
        frame: WireFrame)
    requires frame.protocol == WIRE_PROTOCOL && !slot.phase.ReadyAccepted()
    requires OnMessage(jobId, sig, a, slot, frame.message).slot.phase.ReadyAccepted()
    ensures var step := OnMessage(jobId, sig, a, slot, frame.message);
      step.signature.Some? && ReportsReady(Deliver(a, frame), a, slot, jobId, step.signature.value)
  {
  }

  lemma {:induction false} ReadyComesFromReport(j: Job, c: Command, a: string)
    requires Invariant(j) && a in j.agents
    requires Apply(j, c).agents[a].phase.ReadyAccepted() && !j.agents[a].phase.ReadyAccepted()
    ensures Apply(j, c).readySignature.Some?
    ensures ReportsReady(c, a, j.agents[a], j.jobId, Apply(j, c).readySignature.value)
  {
    hide OnMessage, ReportsReady;
    match c
    case Deliver(agent, frame) =>
      if agent != a {
        DeliveryIsLocal(j, agent, frame, a);
      } else {
        ReadyMessageReports(j.jobId, j.readySignature, a, j.agents[a], frame);
      }
    case Release(_) =>
    case Abort(_) =>
  }

  /** In every state of every run, an agent that is ready, running or finished has delivered a
      full readiness report for its own shard carrying exactly the stored cohort signature. */
  lemma {:induction false} ReadyMeansReported(j: Job, cs: seq<Command>, a: string)
    requires Invariant(j) && a in j.agents && j.agents[a].phase.AwaitingHello?
    requires a in Run(j, cs).agents && Run(j, cs).agents[a].phase.ReadyAccepted()
    ensures Run(j, cs).readySignature.Some?
    ensures HasReported(cs, a, j.agents[a], j.jobId, Run(j, cs).readySignature.value)
  {
    var shorter, last := cs[..|cs| - 1], cs[|cs| - 1];
    var before := Run(j, shorter);
    assert cs == shorter + [last];
    RunKeeps(j, shorter);
    ApplyInvariant(before, last);
    if before.agents[a].phase.ReadyAccepted() {
      ReadyMeansReported(j, shorter, a);
      var c :| c in shorter && ReportsReady(c, a, j.agents[a], j.jobId, before.readySignature.value);
      assert c in cs;
    } else {
      ReadyComesFromReport(before, last, a);
      assert last in cs;
    }
  }

  // ----- final evidence

  predicate DeliversFinal(c: Command, name: string, jobId: string, e: AgentEvidence) {
    c == Deliver(name, Frame(Finished(FinishedFrame(jobId, e))))
  }

  /** Stored final evidence is exactly what some delivered finished frame carried. */
  lemma {:induction false} FinalMeansDelivered(j: Job, cs: seq<Command>, a: string)
    requires Invariant(j) && a in j.agents && j.agents[a].phase.AwaitingHello?
    requires a in Run(j, cs).agents && Run(j, cs).agents[a].finalEvidence.Some?
    ensures exists c :: c in cs && DeliversFinal(c, a, j.jobId, Run(j, cs).agents[a].finalEvidence.value)
  {
    if cs != [] {
      var shorter, last := cs[..|cs| - 1], cs[|cs| - 1];
      var before := Run(j, shorter);
      assert cs == shorter + [last];
      RunKeeps(j, shorter);
      ApplyInvariant(before, last);
      if before.agents[a].finalEvidence.Some? {
        FinalMeansDelivered(j, shorter, a);
      } else {
        FinalComesFromFrame(before, last, a);
        assert last in cs;
      }
    }
  }

  lemma {:induction false} FinalComesFromFrame(j: Job, c: Command, a: string)
    requires Invariant(j) && a in j.agents
    requires j.agents[a].finalEvidence.None? && Apply(j, c).agents[a].finalEvidence.Some?
    ensures DeliversFinal(c, a, j.jobId, Apply(j, c).agents[a].finalEvidence.value)
  {
    match c
    case Deliver(agent, frame) =>
      if agent != a {
        DeliveryIsLocal(j, agent, frame, a);
      }
    case Release(_) =>
    case Abort(_) =>
  }

  // ----- one release

  predicate Releases(j: Job, cs: seq<Command>, k: nat)
    requires k < |cs|
  {
    cs[k].Release? && AllReady(Run(j, cs[..k]))
  }

  /** `start_all` succeeds at most once in a run, and never after a `cancel_all`. */
  lemma {:induction false} ReleasedAtMostOnce(j: Job, cs: seq<Command>, k: nat, m: nat)
    requires Invariant(j) && k < m < |cs|
    requires cs[k].Abort? || Releases(j, cs, k)
    ensures !Releases(j, cs, m)
  {
    assert cs[..k + 1][..k] == cs[..k];
    assert cs[..m][..k + 1] == cs[..k + 1];
    RunKeeps(j, cs[..k]);
    PastReady(Run(j, cs[..k]), cs[k]);
    LaterKeeps(j, cs[..m], k + 1);
    NeverReadyAgain(Run(j, cs[..k + 1]), Run(j, cs[..m]));
  }

  predicate BeyondReady(j: Job) {
    forall a :: a in j.agents ==> j.agents[a].phase.Rank() > 2
  }

  lemma {:induction false} PastReady(j: Job, c: Command)
    requires c.Abort? || (c.Release? && AllReady(j))
    ensures BeyondReady(Apply(j, c))
  {
  }

  lemma {:induction false} NeverReadyAgain(j: Job, later: Job)
    requires BeyondReady(j) && j.agents.Keys != {} && later.agents.Keys == j.agents.Keys
    requires forall a :: a in j.agents ==> SlotKept(j.agents[a], later.agents[a])
    ensures !AllReady(later)
  {
    var a :| a in j.agents.Keys;
    assert SlotKept(j.agents[a], later.agents[a]);
    assert !later.agents[a].phase.IsReady?;
  }

  // ----- bounded phase changes

  function RankSum(j: Job, names: seq<string>): nat
    requires forall a :: a in names ==> a in j.agents
  {
    if names == [] then 0 else j.agents[names[0]].phase.Rank() + RankSum(j, names[1..])
  }

  function ChangeCount(j: Job, k: Job, names: seq<string>): nat
    requires forall a :: a in names ==> a in j.agents && a in k.agents
  {
    if names == [] then 0
    else (if j.agents[names[0]].phase != k.agents[names[0]].phase then 1 else 0) + ChangeCount(j, k, names[1..])
  }

  /** How many times, over the whole run, some agent's phase changed. */
  ghost function PhaseChanges(j: Job, cs: seq<Command>): nat
    requires Invariant(j)
  {
    if cs == [] then 0
    else
      var shorter := cs[..|cs| - 1];
      RunKeeps(j, shorter);
      RunKeeps(j, cs);
      PhaseChanges(j, shorter) + ChangeCount(Run(j, shorter), Run(j, cs), Sorted(j.agents.Keys))
  }

  lemma {:induction false} ChangesRaiseRank(j: Job, k: Job, names: seq<string>)
    requires forall a :: a in names ==> a in j.agents && a in k.agents && SlotKept(j.agents[a], k.agents[a])
    ensures RankSum(j, names) + ChangeCount(j, k, names) <= RankSum(k, names) <= 5 * |names|
  {
    if names != [] {
      ChangesRaiseRank(j, k, names[1..]);
      assert names[0] in names;
    }
  }

  lemma {:induction false} ChangesPayRank(j: Job, cs: seq<Command>)
    requires Invariant(j)
    ensures Run(j, cs).agents.Keys == j.agents.Keys
    ensures RankSum(j, Sorted(j.agents.Keys)) + PhaseChanges(j, cs) <= RankSum(Run(j, cs), Sorted(j.agents.Keys))
  {
    RunKeeps(j, cs);
    if cs != [] {
      var shorter, last := cs[..|cs| - 1], cs[|cs| - 1];
      ChangesPayRank(j, shorter);
      RunKeeps(j, shorter);
      ApplyInvariant(Run(j, shorter), last);
      ChangesRaiseRank(Run(j, shorter), Run(j, cs), Sorted(j.agents.Keys));
    }
  }

  /** However long the run and whatever the frames, phases change at most five times per agent. */
  lemma {:induction false} PhaseChangesBounded(j: Job, cs: seq<Command>)
    requires Invariant(j)
    ensures PhaseChanges(j, cs) <= 5 * |j.agents|
  {
    ChangesPayRank(j, cs);
    RunKeeps(j, cs);
    var names := Sorted(j.agents.Keys);
    forall a | a in names ensures SlotKept(Run(j, cs).agents[a], Run(j, cs).agents[a]) {
    }
    ChangesRaiseRank(Run(j, cs), Run(j, cs), names);
  }

  // ----- progress

  /** The checkpoints of one agent that the controller accepted, in the order of arrival. */
  function AcceptedProgress(j: Job, cs: seq<Command>, a: string): seq<Checkpoint> {
    if cs == [] then []
    else
      var shorter, last := cs[..|cs| - 1], cs[|cs| - 1];
      var before := AcceptedProgress(j, shorter, a);
      if last.Deliver? && last.agent == a && last.frame.message.Progress?
        && AcceptReply(Run(j, shorter), a, last.frame).Ok?
      then before + [Checkpoint(last.frame.message.progress.sequence, last.frame.message.progress.evidence)]
      else before
  }

  function Best(cs: seq<Checkpoint>): Option<Checkpoint> {
    if cs == [] then None else Newer(Best(cs[..|cs| - 1]), cs[|cs| - 1])
  }

  lemma {:induction false} ProgressStored(j: Job, agent: string, frame: WireFrame, a: string)
    requires a in j.agents
    ensures a in Accept(j, agent, frame).agents
    ensures Accept(j, agent, frame).agents[a].latestProgress
         == if agent == a && frame.message.Progress? && AcceptReply(j, a, frame).Ok?
            then Newer(j.agents[a].latestProgress, Checkpoint(frame.message.progress.sequence, frame.message.progress.evidence))
            else j.agents[a].latestProgress
  {
    if agent != a {
      DeliveryIsLocal(j, agent, frame, a);
    }
  }

  lemma {:induction false} LatestIsBest(j: Job, cs: seq<Command>, a: string)
    requires Invariant(j) && a in j.agents && j.agents[a].latestProgress.None?
    ensures a in Run(j, cs).agents && Run(j, cs).agents[a].latestProgress == Best(AcceptedProgress(j, cs, a))
  {
    RunKeeps(j, cs);
    if cs != [] {
      var shorter, last := cs[..|cs| - 1], cs[|cs| - 1];
      LatestIsBest(j, shorter, a);
      if last.Deliver? {
        RunKeeps(j, shorter);
        ProgressStored(Run(j, shorter), last.agent, last.frame, a);
        var before := AcceptedProgress(j, shorter, a);
        assert forall c :: (before + [c])[..|before|] == before;
      }
    }
  }

  /** The stored checkpoint has the highest accepted sequence. */
  lemma {:induction false} BestIsHighest(cs: seq<Checkpoint>)
    ensures Best(cs).None? <==> cs == []
    ensures Best(cs).Some? ==> Best(cs).value in cs
    ensures forall c :: c in cs ==> Best(cs).Some? && c.sequence <= Best(cs).value.sequence
  {
    if cs != [] {
      BestIsHighest(cs[..|cs| - 1]);
      assert cs == cs[..|cs| - 1] + [cs[|cs| - 1]];
    }
  }

  /** Order and duplication of deliveries do not matter when a sequence number names one checkpoint. */
  lemma {:induction false} BestIgnoresOrder(cs: seq<Checkpoint>, ds: seq<Checkpoint>)
    requires forall c :: c in cs <==> c in ds
    requires forall c, d :: c in cs && d in cs && c.sequence == d.sequence ==> c == d
    ensures Best(cs) == Best(ds)
  {
    BestIsHighest(cs);
    BestIsHighest(ds);
    if cs != [] {
      assert cs[0] in ds;
    }
    assert ds == [] || ds[0] in cs;
  }

  /** Two runs that accept the same checkpoints of an agent, in whatever order and however
      often, store the same one. */
  lemma {:induction false} ProgressIgnoresDeliveryOrder(j: Job, cs: seq<Command>, ds: seq<Command>, a: string)
    requires Invariant(j) && a in j.agents && j.agents[a].latestProgress.None?
    requires forall c :: c in AcceptedProgress(j, cs, a) <==> c in AcceptedProgress(j, ds, a)
    requires forall c, d :: (c in AcceptedProgress(j, cs, a) && d in AcceptedProgress(j, cs, a)
                             && c.sequence == d.sequence) ==> c == d
    ensures a in Run(j, cs).agents && a in Run(j, ds).agents
    ensures Run(j, cs).agents[a].latestProgress == Run(j, ds).agents[a].latestProgress
  {
    LatestIsBest(j, cs, a);
    LatestIsBest(j, ds, a);
    BestIgnoresOrder(AcceptedProgress(j, cs, a), AcceptedProgress(j, ds, a));
  }

  // ----- the final report

  /** In every state of a run, all final evidence is there exactly when every agent finished. */
  lemma {:induction false} FinalEvidenceIffAllFinished(j: Job, cs: seq<Command>)
    requires Invariant(j)
    ensures (forall a :: a in Run(j, cs).agents ==> Run(j, cs).agents[a].finalEvidence.Some?)
       <==> (forall a :: a in j.agents ==> a in Run(j, cs).agents && Run(j, cs).agents[a].phase.IsFinished?)
    ensures forall a :: a in Run(j, cs).agents && Run(j, cs).agents[a].finalEvidence.Some? ==>
      EvidenceNames(a, Run(j, cs).agents[a].finalEvidence.value)
  {
    RunKeeps(j, cs);
    forall a | a in Run(j, cs).agents
      ensures SlotInvariant(Run(j, cs), a, Run(j, cs).agents[a])
    {
    }
  }

  /** In every state of a run, an agent's latest evidence is what it finished with, once it has, and
      until then the evidence of its highest accepted checkpoint. */
  lemma {:induction false} LatestEvidenceIs(j: Job, cs: seq<Command>, a: string)
    requires Invariant(j) && a in j.agents && j.agents[a].phase.AwaitingHello? && j.agents[a].latestProgress.None?
    ensures a in Run(j, cs).agents
    ensures Run(j, cs).agents[a].phase.IsFinished? ==>
      && LatestEvidence(Run(j, cs), a).Some?
      && exists c :: c in cs && DeliversFinal(c, a, j.jobId, LatestEvidence(Run(j, cs), a).value)
    ensures !Run(j, cs).agents[a].phase.IsFinished? ==>
      LatestEvidence(Run(j, cs), a)
        == if Best(AcceptedProgress(j, cs, a)).Some? then Some(Best(AcceptedProgress(j, cs, a)).value.evidence) else None
  {
    RunKeeps(j, cs);
    LatestIsBest(j, cs, a);
    assert SlotInvariant(Run(j, cs), a, Run(j, cs).agents[a]);
    if Run(j, cs).agents[a].finalEvidence.Some? {
      FinalMeansDelivered(j, cs, a);
    }
  }
}
