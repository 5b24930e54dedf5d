/** Runs without cancellation or failure: controller and agents never reject each other's frames. */
module FaultFree {
  import opened Basics
  import opened Ordering
  import opened Protocol
  import opened ControllerSpec
  import opened Agent
  import opened Network
  import C = ControllerRuns

  /** No cancellation, no failure, and agents that report ready do so in full under signature `k`. */
  predicate Healthy(job: Job, k: Signature, act: Action) {
    && !act.ControllerCancels? && !act.AgentFails?
    && (act.AgentReadies? && act.a in job.agents ==>
          FullyReady(act.ready, job.agents[act.a].prepare.shard) && SignatureOf(act.ready) == k)
  }

  /** The greeting names nobody else and offers the scenario and capacity the plan needs. */
  predicate Capable(a: string, hello: HelloFrame, prepare: PrepareFrame) {
    HelloProblem(a, hello, prepare).None?
  }

  // ----- the shapes an upward queue can have

  predicate Beat(jobId: string, f: WireFrame) {
    f.protocol == WIRE_PROTOCOL && f.message.Heartbeat? && f.message.heartbeat.jobId == jobId
  }

  predicate Report(jobId: string, a: string, f: WireFrame) {
    Beat(jobId, f)
    || (f.protocol == WIRE_PROTOCOL && f.message.Progress? && f.message.progress.jobId == jobId
        && EvidenceNames(a, f.message.progress.evidence))
  }

  predicate ReadyFor(jobId: string, a: string, slot: Slot, k: Signature, f: WireFrame) {
    f.protocol == WIRE_PROTOCOL && GoodReady(f, slot, k) && f.message.ready.jobId == jobId && f.message.ready.agentName == a
  }

  predicate FinalOf(jobId: string, a: string, f: WireFrame) {
    f.protocol == WIRE_PROTOCOL && f.message.Finished? && f.message.finished.jobId == jobId
    && EvidenceNames(a, f.message.finished.evidence)
  }

  predicate Beats(jobId: string, fs: seq<WireFrame>) {
    fs == [] || (Beat(jobId, fs[0]) && Beats(jobId, fs[1..]))
  }

  predicate Reports(jobId: string, a: string, fs: seq<WireFrame>) {
    fs == [] || (Report(jobId, a, fs[0]) && Reports(jobId, a, fs[1..]))
  }

  /** Heartbeats around exactly one readiness report. */
  predicate BeatsReadyBeats(jobId: string, a: string, slot: Slot, k: Signature, fs: seq<WireFrame>) {
    fs != [] && if Beat(jobId, fs[0]) then BeatsReadyBeats(jobId, a, slot, k, fs[1..])
                else ReadyFor(jobId, a, slot, k, fs[0]) && Beats(jobId, fs[1..])
  }

  /** Reports closed by exactly one finished frame. */
  predicate ReportsFinal(jobId: string, a: string, fs: seq<WireFrame>) {
    fs != [] && if Report(jobId, a, fs[0]) then ReportsFinal(jobId, a, fs[1..])
                else FinalOf(jobId, a, fs[0]) && fs[1..] == []
  }

  lemma {:induction false} BeatsSnoc(jobId: string, fs: seq<WireFrame>, f: WireFrame)
    requires Beats(jobId, fs) && Beat(jobId, f)
    ensures Beats(jobId, fs + [f])
  {
    if fs != [] {
      BeatsSnoc(jobId, fs[1..], f);
      assert (fs + [f])[1..] == fs[1..] + [f];
    } else {
      assert (fs + [f])[1..] == [];
    }
  }

  lemma {:induction false} BeatsThenReady(jobId: string, a: string, slot: Slot, k: Signature, fs: seq<WireFrame>,
        f: WireFrame)
    requires Beats(jobId, fs) && ReadyFor(jobId, a, slot, k, f)
    ensures BeatsReadyBeats(jobId, a, slot, k, fs + [f])
  {
    if fs != [] {
      BeatsThenReady(jobId, a, slot, k, fs[1..], f);
      assert (fs + [f])[1..] == fs[1..] + [f];
    } else {
      assert (fs + [f])[1..] == [];
    }
  }

  lemma {:induction false} ReadyThenBeat(jobId: string, a: string, slot: Slot, k: Signature, fs: seq<WireFrame>,
        f: WireFrame)
    requires BeatsReadyBeats(jobId, a, slot, k, fs) && Beat(jobId, f)
    ensures BeatsReadyBeats(jobId, a, slot, k, fs + [f])
  {
    assert (fs + [f])[1..] == fs[1..] + [f];
    if Beat(jobId, fs[0]) {
      ReadyThenBeat(jobId, a, slot, k, fs[1..], f);
    } else {
      BeatsSnoc(jobId, fs[1..], f);
    }
  }

  lemma {:induction false} ReportsSnoc(jobId: string, a: string, fs: seq<WireFrame>, f: WireFrame)
    requires Reports(jobId, a, fs) && Report(jobId, a, f)
    ensures Reports(jobId, a, fs + [f])
  {
    if fs != [] {
      ReportsSnoc(jobId, a, fs[1..], f);
      assert (fs + [f])[1..] == fs[1..] + [f];
    } else {
      assert (fs + [f])[1..] == [];
    }
  }

  lemma {:induction false} ReportsThenFinal(jobId: string, a: string, fs: seq<WireFrame>, f: WireFrame)
    requires Reports(jobId, a, fs) && FinalOf(jobId, a, f)
    ensures ReportsFinal(jobId, a, fs + [f])
  {
    if fs != [] {
      ReportsThenFinal(jobId, a, fs[1..], f);
      assert (fs + [f])[1..] == fs[1..] + [f];
    } else {
      assert (fs + [f])[1..] == [];
    }
  }

  lemma {:induction false} BeatsAreReports(jobId: string, a: string, fs: seq<WireFrame>)
    requires Beats(jobId, fs)
    ensures Reports(jobId, a, fs)
  {
    if fs != [] {
      BeatsAreReports(jobId, a, fs[1..]);
    }
  }

  // ----- how controller phase, agent phase and queues fit together

  /** The lock-step of one link: for each phase of the controller, where the agent can be and
      what can be in flight. */
  predicate Step(jobId: string, k: Signature, a: string, slot: Slot, p: Peer) {
    match slot.phase
    case AwaitingHello =>
      p.agent.phase.AwaitingPrepare? && p.down == []
      && p.up == (if p.greeted then [Frame(Hello(p.agent.hello))] else [])
    case Preparing =>
      p.greeted
      && ((p.agent.phase.AwaitingPrepare? && p.down == [Frame(Prepare(slot.prepare))] && p.up == [])
          || (p.agent.phase.AgentPreparing? && p.down == [] && Beats(jobId, p.up))
          || (p.agent.phase.AgentReady? && p.down == [] && BeatsReadyBeats(jobId, a, slot, k, p.up)))
    case IsReady =>
      p.greeted && p.agent.phase.AgentReady? && p.down == [] && Beats(jobId, p.up)
    case Running =>
      p.greeted
      && ((p.agent.phase.AgentReady? && |p.down| == 1 && p.down[0].message.Start?
           && ControllerFrame(jobId, a, slot, p.down[0]) && Beats(jobId, p.up))
          || (p.agent.phase.AgentRunning? && p.down == [] && Reports(jobId, a, p.up))
          || (p.agent.phase.AgentFinished? && p.down == [] && ReportsFinal(jobId, a, p.up)))
    case IsFinished =>
      p.greeted && p.agent.phase.AgentFinished? && p.down == [] && p.up == []
    case _ => false
  }

  predicate InStep(jobId: string, k: Signature, sig: Option<Signature>, a: string, slot: Slot, p: Peer) {
    && Identity(jobId, a, p.agent)
    && Capable(a, p.agent.hello, slot.prepare)
    && slot.prepare.jobId == jobId && slot.prepare.shard.agentName == a
    && (sig.Some? ==> sig.value == k)
    && Step(jobId, k, a, slot, p)
  }

  /** The oldest frame on either queue is accepted by whoever is to receive it. */
  predicate HeadsAccepted(jobId: string, sig: Option<Signature>, a: string, slot: Slot, p: Peer) {
    && (p.up != [] ==> p.up[0].protocol == WIRE_PROTOCOL && OnMessage(jobId, sig, a, slot, p.up[0].message).reply.Ok?)
    && (p.down != [] ==> AcceptFrame(p.agent, p.down[0]).reply.Ok?)
  }

  lemma {:induction false} InStepAccepts(jobId: string, k: Signature, sig: Option<Signature>, a: string, slot: Slot,
        p: Peer)
    requires InStep(jobId, k, sig, a, slot, p)
    ensures HeadsAccepted(jobId, sig, a, slot, p)
  {
  }

  // ----- one link, one action

  lemma {:induction false} AgentTakesInStep(jobId: string, k: Signature, sig: Option<Signature>, a: string,
        slot: Slot, p: Peer)
    requires InStep(jobId, k, sig, a, slot, p) && p.down != []
    ensures InStep(jobId, k, sig, a, slot, PeerActs(p, AgentTakes(a)))
  {
    if slot.phase.Running? {
      BeatsAreReports(jobId, a, p.up);
    }
  }

  lemma {:induction false} BeatInStep(jobId: string, k: Signature, sig: Option<Signature>, a: string, slot: Slot,
        p: Peer, n: u64)
    requires InStep(jobId, k, sig, a, slot, p)
    ensures InStep(jobId, k, sig, a, slot, PeerActs(p, AgentBeats(a, n)))
  {
    hide Capable;
    var r := SendHeartbeat(p.agent, n);
    if r.Ok? {
      assert Beat(jobId, r.value);
      if slot.phase.Preparing? && p.agent.phase.AgentReady? {
        ReadyThenBeat(jobId, a, slot, k, p.up, r.value);
      } else if slot.phase.Running? && p.agent.phase.AgentRunning? {
        ReportsSnoc(jobId, a, p.up, r.value);
      } else {
        BeatsSnoc(jobId, p.up, r.value);
      }
    }
  }

  lemma {:induction false} ReadiesInStep(jobId: string, k: Signature, sig: Option<Signature>, a: string, slot: Slot,
        p: Peer, ready: ReadyFrame)
    requires InStep(jobId, k, sig, a, slot, p)
    requires FullyReady(ready, slot.prepare.shard) && SignatureOf(ready) == k
    ensures InStep(jobId, k, sig, a, slot, PeerActs(p, AgentReadies(a, ready)))
  {
    hide Capable, BeatsReadyBeats, Beats, FullyReady;
    var r := MarkReady(p.agent, ready);
    if r.reply.Ok? {
      BeatsThenReady(jobId, a, slot, k, p.up, r.reply.value);
    }
  }

  lemma {:induction false} ProgressInStep(jobId: string, k: Signature, sig: Option<Signature>, a: string, slot: Slot,
        p: Peer, n: u64, e: AgentEvidence)
    requires InStep(jobId, k, sig, a, slot, p)
    ensures InStep(jobId, k, sig, a, slot, PeerActs(p, AgentProgresses(a, n, e)))
  {
    hide Capable;
    var r := SendProgress(p.agent, n, e);
    if r.Ok? {
      ReportsSnoc(jobId, a, p.up, r.value);
    }
  }

  lemma {:induction false} FinishInStep(jobId: string, k: Signature, sig: Option<Signature>, a: string, slot: Slot,
        p: Peer, e: AgentEvidence)
    requires InStep(jobId, k, sig, a, slot, p)
    ensures InStep(jobId, k, sig, a, slot, PeerActs(p, AgentFinishes(a, e)))
  {
    hide Capable;
    var r := Finish(p.agent, e);
    if r.reply.Ok? {
      ReportsThenFinal(jobId, a, p.up, r.reply.value);
    }
  }

  lemma {:induction false} PeerActsInStep(jobId: string, k: Signature, sig: Option<Signature>, a: string, slot: Slot,
        p: Peer, act: Action)
    requires InStep(jobId, k, sig, a, slot, p)
    requires !act.Cohort() && !act.ControllerTakes? && !act.AgentFails?
    requires act.AgentReadies? ==> FullyReady(act.ready, slot.prepare.shard) && SignatureOf(act.ready) == k
    ensures InStep(jobId, k, sig, a, slot, PeerActs(p, act))
  {
    match act
    case Greet(_) =>
    case AgentTakes(_) =>
      if p.down != [] {
        AgentTakesInStep(jobId, k, sig, a, slot, p);
      }
    case AgentReadies(_, ready) => ReadiesInStep(jobId, k, sig, a, slot, p, ready);
    case AgentProgresses(_, n, e) => ProgressInStep(jobId, k, sig, a, slot, p, n, e);
    case AgentBeats(_, n) => BeatInStep(jobId, k, sig, a, slot, p, n);
    case AgentFinishes(_, e) => FinishInStep(jobId, k, sig, a, slot, p, e);
    case AgentAcknowledges(_, _) =>
  }

  lemma {:induction false} ControllerTakesInStep(jobId: string, k: Signature, sig: Option<Signature>, a: string,
        slot: Slot, p: Peer)
    requires InStep(jobId, k, sig, a, slot, p) && p.up != []
    ensures var step := OnMessage(jobId, sig, a, slot, p.up[0].message);
      && InStep(jobId, k, step.signature, a, step.slot, Answered(p, step.reply))
      && (sig.Some? ==> step.signature == sig)
  {
    var step := OnMessage(jobId, sig, a, slot, p.up[0].message);
    InStepAccepts(jobId, k, sig, a, slot, p);
    if slot.phase.Preparing? && p.agent.phase.AgentReady? && Beat(jobId, p.up[0]) {
      assert step.slot == slot;
    }
  }

  // ----- the whole system

  predicate Gated(phase: Phase) {
    phase.Running? || phase.IsFinished?
  }

  /** Either no agent has been released or every one has. */
  ghost predicate GateShared(j: Job) {
    (forall a :: a in j.agents ==> Gated(j.agents[a].phase)) || (forall a :: a in j.agents ==> !Gated(j.agents[a].phase))
  }

  ghost predicate AllInStep(s: System, k: Signature) {
    && s.peers.Keys == s.job.agents.Keys
    && (forall a :: a in s.peers ==> InStep(s.job.jobId, k, s.job.readySignature, a, s.job.agents[a], s.peers[a]))
    && GateShared(s.job)
  }

  lemma {:induction false} InStepUnder(jobId: string, k: Signature, sig: Option<Signature>, sig': Option<Signature>,
        a: string, slot: Slot, p: Peer)
    requires InStep(jobId, k, sig, a, slot, p) && (sig'.Some? ==> sig'.value == k)
    ensures InStep(jobId, k, sig', a, slot, p)
  {
  }

  lemma {:induction false} StartOneInStep(jobId: string, k: Signature, sig: Option<Signature>, a: string, slot: Slot,
        p: Peer, f: WireFrame)
    requires InStep(jobId, k, sig, a, slot, p) && slot.phase.IsReady?
    requires f.protocol == WIRE_PROTOCOL && f.message.Start? && f.message.start.jobId == jobId
    ensures InStep(jobId, k, sig, a, slot.(phase := Running), p.(down := p.down + [f]))
  {
  }

  lemma {:induction false} StartsInStep(s: System, k: Signature, ms: u64)
    requires AllInStep(s, k) && AllReady(s.job)
    ensures AllInStep(Do(s, ControllerStarts(ms)), k)
  {
    hide InStep;
    var t := Do(s, ControllerStarts(ms));
    assert t.peers.Keys == s.peers.Keys && t.job.agents.Keys == s.job.agents.Keys;
    forall a | a in t.peers ensures InStep(t.job.jobId, k, t.job.readySignature, a, t.job.agents[a], t.peers[a]) {
      StartOneInStep(s.job.jobId, k, s.job.readySignature, a, s.job.agents[a], s.peers[a], StartMessage(s.job, ms));
    }
  }

  /** A frame from one agent moves that agent across the gate only from `Running` to `IsFinished`. */
  lemma {:induction false} FrameKeepsGate(jobId: string, sig: Option<Signature>, a: string, slot: Slot, m: WireMessage)
    requires OnMessage(jobId, sig, a, slot, m).reply.Ok? && !m.Failed?
    ensures Gated(OnMessage(jobId, sig, a, slot, m).slot.phase) <==> Gated(slot.phase)
  {
  }

  lemma {:induction false} OneLinkInStep(s: System, k: Signature, a: string, job: Job, p: Peer)
    requires AllInStep(s, k) && a in s.peers && job.jobId == s.job.jobId && job.agents.Keys == s.job.agents.Keys
    requires forall b :: b in s.job.agents && b != a ==> job.agents[b] == s.job.agents[b]
    requires InStep(job.jobId, k, job.readySignature, a, job.agents[a], p)
    requires Gated(job.agents[a].phase) <==> Gated(s.job.agents[a].phase)
    requires job.readySignature.Some? ==> job.readySignature.value == k
    ensures AllInStep(System(job, s.peers[a := p]), k)
  {
    hide InStep, Gated;
    var t := System(job, s.peers[a := p]);
    assert t.peers.Keys == s.peers.Keys;
    forall b | b in t.peers ensures InStep(job.jobId, k, job.readySignature, b, job.agents[b], t.peers[b]) {
      if b != a {
        InStepUnder(job.jobId, k, s.job.readySignature, job.readySignature, b, s.job.agents[b], s.peers[b]);
      }
    }
  }

  lemma {:induction false} UpIsNoFailure(jobId: string, k: Signature, sig: Option<Signature>, a: string, slot: Slot,
        p: Peer)
    requires InStep(jobId, k, sig, a, slot, p) && p.up != []
    ensures !p.up[0].message.Failed?
  {
  }

  lemma {:induction false} DeliveryInStep(s: System, k: Signature, a: string)
    requires AllInStep(s, k) && a in s.peers && s.peers[a].up != []
    ensures AllInStep(Do(s, ControllerTakes(a)), k)
  {
    hide InStep, OnMessage, Gated;
    var p, slot := s.peers[a], s.job.agents[a];
    var f := p.up[0];
    InStepAccepts(s.job.jobId, k, s.job.readySignature, a, slot, p);
    UpIsNoFailure(s.job.jobId, k, s.job.readySignature, a, slot, p);
    ControllerTakesInStep(s.job.jobId, k, s.job.readySignature, a, slot, p);
    FrameKeepsGate(s.job.jobId, s.job.readySignature, a, slot, f.message);
    C.DeliveryKeepsOthers(s.job, a, f);
    SignatureIsK(s.job.jobId, k, OnMessage(s.job.jobId, s.job.readySignature, a, slot, f.message).signature, a,
      OnMessage(s.job.jobId, s.job.readySignature, a, slot, f.message).slot,
      Answered(p, OnMessage(s.job.jobId, s.job.readySignature, a, slot, f.message).reply));
    OneLinkInStep(s, k, a, ControllerSpec.Accept(s.job, a, f), Answered(p, AcceptReply(s.job, a, f)));
  }

  lemma {:induction false} SignatureIsK(jobId: string, k: Signature, sig: Option<Signature>, a: string, slot: Slot,
        p: Peer)
    requires InStep(jobId, k, sig, a, slot, p)
    ensures sig.Some? ==> sig.value == k
  {
  }

  lemma {:induction false} PeerActionInStep(s: System, k: Signature, act: Action)
    requires AllInStep(s, k) && Healthy(s.job, k, act) && !act.Cohort() && !act.ControllerTakes? && act.a in s.peers
    ensures AllInStep(Do(s, act), k)
  {
    hide InStep, PeerActs;
    PeerActsInStep(s.job.jobId, k, s.job.readySignature, act.a, s.job.agents[act.a], s.peers[act.a], act);
    SignatureIsK(s.job.jobId, k, s.job.readySignature, act.a, s.job.agents[act.a], s.peers[act.a]);
    OneLinkInStep(s, k, act.a, s.job, PeerActs(s.peers[act.a], act));
  }

  lemma {:induction false} StepInStep(s: System, k: Signature, act: Action)
    requires AllInStep(s, k) && Healthy(s.job, k, act)
    ensures AllInStep(Do(s, act), k)
  {
    hide AllInStep, AllReady, GetsCancel, AcceptReply, PeerActs;
    if act.ControllerStarts? {
      if AllReady(s.job) {
        StartsInStep(s, k, act.startAfterMs);
      }
    } else if act.ControllerTakes? {
      if act.a in s.peers && s.peers[act.a].up != [] {
        DeliveryInStep(s, k, act.a);
      }
    } else if act.a in s.peers {
      PeerActionInStep(s, k, act);
    }
  }

  ghost predicate HealthyRun(prepares: seq<PrepareFrame>, k: Signature, acts: seq<Action>)
    requires NewJob(prepares).Ok?
  {
    forall act :: act in acts ==> Healthy(NewJob(prepares).value, k, act)
  }

  ghost predicate CapableCohort(prepares: seq<PrepareFrame>, hellos: map<string, HelloFrame>)
    requires NewJob(prepares).Ok?
  {
    var j := NewJob(prepares).value;
    j.agents.Keys <= hellos.Keys && forall a :: a in j.agents ==> Capable(a, hellos[a], j.agents[a].prepare)
  }

  lemma {:induction false} InitInStep(prepares: seq<PrepareFrame>, hellos: map<string, HelloFrame>, k: Signature)
    requires NewJob(prepares).Ok? && CapableCohort(prepares, hellos)
    ensures AllInStep(Init(NewJob(prepares).value, hellos), k)
  {
    hide NewJob, Capable;
    C.NewJobInvariant(prepares);
    var j := NewJob(prepares).value;
    var s := Init(j, hellos);
    forall a | a in s.peers ensures InStep(j.jobId, k, j.readySignature, a, j.agents[a], s.peers[a]) {
      assert C.SlotInvariant(j, a, j.agents[a]);
      NothingReadyYet(prepares);
      FreshInStep(j.jobId, k, a, j.agents[a], hellos[a]);
    }
    NothingReadyYet(prepares);
  }

  lemma {:induction false} FreshInStep(jobId: string, k: Signature, a: string, slot: Slot, hello: HelloFrame)
    requires slot.phase.AwaitingHello? && slot.prepare.jobId == jobId && slot.prepare.shard.agentName == a
    requires Capable(a, hello, slot.prepare)
    ensures InStep(jobId, k, None, a, slot, FreshPeer(hello))
  {
  }

  lemma {:induction false} NothingReadyYet(prepares: seq<PrepareFrame>)
    requires NewJob(prepares).Ok?
    ensures NewJob(prepares).value.readySignature.None?
  {
  }

  lemma {:induction false} HealthySame(job: Job, later: Job, k: Signature, act: Action)
    requires Healthy(job, k, act) && later.agents.Keys == job.agents.Keys
    requires forall a :: a in job.agents ==> C.SlotKept(job.agents[a], later.agents[a])
    ensures Healthy(later, k, act)
  {
    if act.AgentReadies? && act.a in job.agents {
      assert C.SlotKept(job.agents[act.a], later.agents[act.a]);
    }
  }

  lemma {:induction false} RunInStep(s: System, k: Signature, acts: seq<Action>)
    requires Safe(s) && AllInStep(s, k)
    requires forall act :: act in acts ==> Healthy(s.job, k, act)
    ensures AllInStep(Run(s, acts), k)
  {
    hide Safe, AllInStep, Healthy;
    if acts != [] {
      var shorter, last := acts[..|acts| - 1], acts[|acts| - 1];
      assert acts == shorter + [last];
      RunInStep(s, k, shorter);
      RunKeepsSafe(s, shorter);
      assert last in acts;
      HealthySame(s.job, Run(s, shorter).job, k, last);
      StepInStep(Run(s, shorter), k, last);
    }
  }

  /** Simulation. In every run without cancellation or failure, with capable greetings and full
      readiness under one signature, no frame at the head of any queue is ever rejected. */
  lemma {:induction false} NothingRejected(prepares: seq<PrepareFrame>, hellos: map<string, HelloFrame>,
        k: Signature, acts: seq<Action>, a: string)
    requires NewJob(prepares).Ok? && CapableCohort(prepares, hellos) && HealthyRun(prepares, k, acts)
    requires a in NewJob(prepares).value.agents
    ensures var s := Run(Init(NewJob(prepares).value, hellos), acts);
      && a in s.peers && a in s.job.agents
      && (s.peers[a].up != [] ==> AcceptReply(s.job, a, s.peers[a].up[0]).Ok?)
      && (s.peers[a].down != [] ==> AcceptFrame(s.peers[a].agent, s.peers[a].down[0]).reply.Ok?)
  {
    hide Safe, Healthy, InStep, NewJob, Extends, OnMessage, AcceptFrame;
    var s0 := Init(NewJob(prepares).value, hellos);
    InitSafe(prepares, hellos);
    InitInStep(prepares, hellos, k);
    RunInStep(s0, k, acts);
    RunKeepsSafe(s0, acts);
    var s := Run(s0, acts);
    SameCohort(s0, s, a);
    InStepAccepts(s.job.jobId, k, s.job.readySignature, a, s.job.agents[a], s.peers[a]);
  }

  lemma {:induction false} SameCohort(s: System, t: System, a: string)
    requires Extends(s, t) && a in s.job.agents
    ensures a in t.job.agents
  {
    assert a in t.job.agents.Keys;
  }

  // ----- the run can always be completed

  predicate Complete(j: Job) {
    forall a :: a in j.agents ==> j.agents[a].phase.IsFinished?
  }

  /** How far one link is from the end, in protocol stages. */
  function Stage(slot: Slot, p: Peer): nat {
    match slot.phase
    case AwaitingHello => if p.greeted then 8 else 9
    case Preparing => if p.agent.phase.AwaitingPrepare? then 7 else if p.agent.phase.AgentPreparing? then 6 else 5
    case IsReady => 4
    case Running => if p.agent.phase.AgentReady? then 3 else if p.agent.phase.AgentRunning? then 2 else 1
    case _ => 0
  }

  function LinkWork(slot: Slot, p: Peer): nat {
    2 * Stage(slot, p) + |p.up|
  }

  function Work(s: System, names: seq<string>): nat
    requires forall a :: a in names ==> a in s.peers && a in s.job.agents
  {
    if names == [] then 0 else LinkWork(s.job.agents[names[0]], s.peers[names[0]]) + Work(s, names[1..])
  }

  /** Some single-link action brings a link that is neither finished nor waiting for the gate closer to its end. */
  function NextOn(jobId: string, k: Signature, a: string, slot: Slot, p: Peer, e: AgentEvidence): Action {
    if p.up != [] then ControllerTakes(a)
    else if p.down != [] then AgentTakes(a)
    else if !p.greeted then Greet(a)
    else if p.agent.phase.AgentPreparing? then
      AgentReadies(a, ReadyFrame(jobId, a, slot.prepare.shard.concurrency, slot.prepare.shard.concurrency,
                                 k.inventoryHash, k.protocolVersion))
    else AgentFinishes(a, e)
  }

  predicate NonEmpty(k: Signature) {
    k.inventoryHash != "" && k.protocolVersion != ""
  }

  predicate Waiting(slot: Slot, p: Peer) {
    slot.phase.IsFinished? || (slot.phase.IsReady? && p.up == [])
  }

  lemma {:induction false} PeerAdvances(jobId: string, k: Signature, sig: Option<Signature>, a: string, slot: Slot,
        p: Peer, e: AgentEvidence)
    requires InStep(jobId, k, sig, a, slot, p) && NonEmpty(k) && EvidenceNames(a, e)
    requires !Waiting(slot, p) && p.up == []
    ensures var act := NextOn(jobId, k, a, slot, p, e);
      && !act.Cohort() && !act.ControllerTakes? && act.a == a && !act.AgentFails?
      && (act.AgentReadies? ==> FullyReady(act.ready, slot.prepare.shard) && SignatureOf(act.ready) == k)
      && LinkWork(slot, PeerActs(p, act)) < LinkWork(slot, p)
  {
  }

  lemma {:induction false} DeliveryAdvances(jobId: string, k: Signature, sig: Option<Signature>, a: string,
        slot: Slot, p: Peer)
    requires InStep(jobId, k, sig, a, slot, p) && p.up != []
    ensures var step := OnMessage(jobId, sig, a, slot, p.up[0].message);
      LinkWork(step.slot, Answered(p, step.reply)) < LinkWork(slot, p)
  {
  }

  lemma {:induction false} WorkDrops(s: System, t: System, names: seq<string>, a: string)
    requires forall b :: b in names ==> b in s.peers && b in s.job.agents && b in t.peers && b in t.job.agents
    requires forall b :: b in names && b != a ==> t.peers[b] == s.peers[b] && t.job.agents[b] == s.job.agents[b]
    requires a in names ==> LinkWork(t.job.agents[a], t.peers[a]) < LinkWork(s.job.agents[a], s.peers[a])
    ensures Work(t, names) <= Work(s, names) && (a in names ==> Work(t, names) < Work(s, names))
  {
    if names != [] {
      assert names[0] in names;
      WorkDrops(s, t, names[1..], a);
    }
  }

  lemma {:induction false} WorkDropsAll(s: System, t: System, names: seq<string>)
    requires forall b :: b in names ==> b in s.peers && b in s.job.agents && b in t.peers && b in t.job.agents
    requires forall b :: b in names ==> LinkWork(t.job.agents[b], t.peers[b]) < LinkWork(s.job.agents[b], s.peers[b])
    ensures Work(t, names) <= Work(s, names) && (names != [] ==> Work(t, names) < Work(s, names))
  {
    if names != [] {
      assert names[0] in names;
      WorkDropsAll(s, t, names[1..]);
    }
  }

  function Named(e: AgentEvidence, a: string): AgentEvidence {
    e.(agentName := a, shard := e.shard.(agentName := a))
  }

  lemma {:induction false} NamedIsNamed(e: AgentEvidence, a: string)
    ensures EvidenceNames(a, Named(e, a))
  {
  }

  lemma {:induction false} AdvanceLink(s: System, k: Signature, a: string, e: AgentEvidence) returns (act: Action)
    requires AllInStep(s, k) && NonEmpty(k) && a in s.peers && !Waiting(s.job.agents[a], s.peers[a])
    ensures Healthy(s.job, k, act)
    ensures AllInStep(Do(s, act), k) && Do(s, act).peers.Keys == s.peers.Keys
    ensures Work(Do(s, act), Sorted(s.peers.Keys)) < Work(s, Sorted(s.peers.Keys))
  {
    hide InStep, PeerActs, OnMessage, LinkWork, Waiting, GateShared, AcceptReply, Work, Sorted, EvidenceNames;
    assert EvidenceNames(a, Named(e, a)) by {
      NamedIsNamed(e, a);
    }
    var p, slot := s.peers[a], s.job.agents[a];
    act := NextOn(s.job.jobId, k, a, slot, p, Named(e, a));
    if p.up != [] {
      InStepAccepts(s.job.jobId, k, s.job.readySignature, a, slot, p);
      DeliveryAdvances(s.job.jobId, k, s.job.readySignature, a, slot, p);
      C.DeliveryKeepsOthers(s.job, a, p.up[0]);
      AcceptedReply(s.job, a, p.up[0]);
    } else {
      PeerAdvances(s.job.jobId, k, s.job.readySignature, a, slot, p, Named(e, a));
    }
    StepInStep(s, k, act);
    WorkDrops(s, Do(s, act), Sorted(s.peers.Keys), a);
  }

  lemma {:induction false} AcceptedReply(j: Job, a: string, f: WireFrame)
    requires f.protocol == WIRE_PROTOCOL && a in j.agents
    ensures AcceptReply(j, a, f) == OnMessage(j.jobId, j.readySignature, a, j.agents[a], f.message).reply
  {
  }

  lemma {:induction false} ReleaseAdvances(s: System, k: Signature)
    requires AllInStep(s, k) && AllReady(s.job) && s.peers.Keys != {}
    ensures AllInStep(Do(s, ControllerStarts(0)), k) && Do(s, ControllerStarts(0)).peers.Keys == s.peers.Keys
    ensures Work(Do(s, ControllerStarts(0)), Sorted(s.peers.Keys)) < Work(s, Sorted(s.peers.Keys))
  {
    hide InStep, GateShared, LinkWork;
    var t := Do(s, ControllerStarts(0));
    StartsInStep(s, k, 0);
    assert t.peers.Keys == s.peers.Keys;
    forall b | b in Sorted(s.peers.Keys)
      ensures LinkWork(t.job.agents[b], t.peers[b]) < LinkWork(s.job.agents[b], s.peers[b])
    {
      ReleaseOneAdvances(s.job.jobId, k, s.job.readySignature, b, s.job.agents[b], s.peers[b], StartMessage(s.job, 0));
    }
    WorkDropsAll(s, t, Sorted(s.peers.Keys));
  }

  lemma {:induction false} ReleaseOneAdvances(jobId: string, k: Signature, sig: Option<Signature>, a: string,
        slot: Slot, p: Peer, f: WireFrame)
    requires InStep(jobId, k, sig, a, slot, p) && slot.phase.IsReady?
    ensures LinkWork(slot.(phase := Running), p.(down := p.down + [f])) < LinkWork(slot, p)
  {
  }

  lemma {:induction false} EveryoneReady(s: System, k: Signature)
    requires AllInStep(s, k) && forall a :: a in s.peers ==> Waiting(s.job.agents[a], s.peers[a])
    ensures AllReady(s.job) || Complete(s.job)
  {
  }

  lemma {:induction false} RunFirst(s: System, act: Action, acts: seq<Action>)
    ensures Run(s, [act] + acts) == Run(Do(s, act), acts)
    decreases |acts|
  {
    hide Do;
    var all := [act] + acts;
    if acts == [] {
      assert all == [act] && all[..0] == [];
      assert Run(s, []) == s;
    } else {
      RunFirst(s, act, acts[..|acts| - 1]);
      assert all[..|all| - 1] == [act] + acts[..|acts| - 1];
    }
  }

  /** The stages and queued frames left in the whole system. */
  function SystemWork(s: System): nat {
    if s.peers.Keys == s.job.agents.Keys then Work(s, Sorted(s.peers.Keys)) else 0
  }

  /** Unless everyone has finished, some healthy action brings the system closer to the end. */
  lemma {:induction false} Advance(s: System, k: Signature, e: AgentEvidence) returns (act: Action)
    requires AllInStep(s, k) && NonEmpty(k) && s.peers.Keys != {} && !Complete(s.job)
    ensures Healthy(s.job, k, act) && AllInStep(Do(s, act), k) && SystemWork(Do(s, act)) < SystemWork(s)
  {
    hide InStep, LinkWork, Waiting, GateShared, Complete, Do, Work;
    if a :| a in s.peers && !Waiting(s.job.agents[a], s.peers[a]) {
      act := AdvanceLink(s, k, a, e);
    } else {
      EveryoneReady(s, k);
      act := ControllerStarts(0);
      ReleaseAdvances(s, k);
    }
  }

  lemma {:induction false} CanComplete(s: System, k: Signature, e: AgentEvidence) returns (acts: seq<Action>)
    requires Safe(s) && AllInStep(s, k) && NonEmpty(k)
    ensures forall act :: act in acts ==> Healthy(s.job, k, act)
    ensures Complete(Run(s, acts).job)
    decreases SystemWork(s)
  {
    hide AllInStep, Link, Complete, Healthy, SystemWork, Do, C.SlotKept, CohortReported, StartSeen, C.SlotInvariant;
    if Complete(s.job) {
      acts := [];
    } else {
      var act := Advance(s, k, e);
      StepKeepsSafe(s, act);
      var rest := CanComplete(Do(s, act), k, e);
      forall later | later in rest ensures Healthy(s.job, k, later) {
        HealthyBack(s.job, Do(s, act).job, k, later);
      }
      RunFirst(s, act, rest);
      acts := [act] + rest;
    }
  }

  lemma {:induction false} HealthyBack(job: Job, later: Job, k: Signature, act: Action)
    requires Healthy(later, k, act) && later.agents.Keys == job.agents.Keys
    requires forall a :: a in job.agents ==> C.SlotKept(job.agents[a], later.agents[a])
    ensures Healthy(job, k, act)
  {
    if act.AgentReadies? && act.a in job.agents {
      assert C.SlotKept(job.agents[act.a], later.agents[act.a]);
    }
  }

  /** No deadlock: whatever a healthy run has done so far, it can still be continued, again without
      cancellation or failure, until every agent has finished. */
  lemma {:induction false} AlwaysCompletable(prepares: seq<PrepareFrame>, hellos: map<string, HelloFrame>,
        k: Signature, acts: seq<Action>, e: AgentEvidence)
    requires NewJob(prepares).Ok? && CapableCohort(prepares, hellos) && HealthyRun(prepares, k, acts) && NonEmpty(k)
    ensures exists more :: (HealthyRun(prepares, k, more)
                            && Complete(Run(Run(Init(NewJob(prepares).value, hellos), acts), more).job))
  {
    hide Safe, Healthy, NewJob, InStep, C.SlotKept;
    var s0 := Init(NewJob(prepares).value, hellos);
    InitSafe(prepares, hellos);
    InitInStep(prepares, hellos, k);
    RunInStep(s0, k, acts);
    RunKeepsSafe(s0, acts);
    var s := Run(s0, acts);
    var more := CanComplete(s, k, e);
    forall act | act in more ensures Healthy(s0.job, k, act) {
      HealthyBack(s0.job, s.job, k, act);
    }
    assert HealthyRun(prepares, k, more);
  }
}
