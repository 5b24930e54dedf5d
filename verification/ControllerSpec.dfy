/** The controller's protocol state as a value, and one function per operation on it. */
module ControllerSpec {
  import opened Basics
  import opened Ordering
  import opened Protocol

  datatype Phase =
    | AwaitingHello | Preparing | IsReady | Running | IsFinished | IsFailed | Cancelling | IsCancelled
  {
    predicate Terminal() {
      IsFinished? || IsFailed? || IsCancelled?
    }

    /** Every phase change moves strictly up this scale. */
    function Rank(): nat {
      match this
      case AwaitingHello => 0
      case Preparing => 1
      case IsReady => 2
      case Running => 3
      case Cancelling => 4
      case IsFinished => 5
      case IsFailed => 5
      case IsCancelled => 5
    }

    /** The controller holds a full readiness report from an agent in these phases. */
    predicate ReadyAccepted() {
      IsReady? || Running? || IsFinished?
    }
  }

  datatype Checkpoint = Checkpoint(sequence: u64, evidence: AgentEvidence)

  datatype Slot = Slot(
    phase: Phase, prepare: PrepareFrame, latestProgress: Option<Checkpoint>,
    finalEvidence: Option<AgentEvidence>, failure: Option<FailedFrame>)

  datatype Signature = Signature(protocolVersion: string, inventoryHash: string)

  datatype Job = Job(jobId: string, agents: map<string, Slot>, readySignature: Option<Signature>)

  datatype ControllerError =
    | EmptyCohort
    | DuplicateAgent(name: string)
    | UnknownAgent(name: string)
    | UnsupportedProtocol(got: string)
    | JobMismatch(expectedJob: string, gotJob: string)
    | AgentMismatch(expectedAgent: string, gotAgent: string)
    | CapabilityMismatch(name: string)
    | ReadinessShortfall(name: string, requested: u32, live: u32)
    | TargetProtocolMismatch(name: string, expectedVersion: string, gotVersion: string)
    | ToolInventoryMismatch(name: string)
    | UnexpectedFrame(name: string, phase: Phase, message: WireMessage)
    | CohortNotReady
    | MissingFinalEvidence(name: string)
    | InvalidEvidence(expectedAgent: string, evidenceAgent: string, shardAgent: string)

  type Reply = Result<Option<WireFrame>, ControllerError>

  /** What one frame does to the agent's slot and to the cohort signature. */
  datatype SlotStep = SlotStep(slot: Slot, signature: Option<Signature>, reply: Reply)

  // ----- construction

  function FreshSlot(prepare: PrepareFrame): Slot {
    Slot(AwaitingHello, prepare, None, None, None)
  }

  /** Insert the prepare frames from left to right, stopping at the first conflict. */
  function Enrol(jobId: string, prepares: seq<PrepareFrame>): (r: Result<map<string, Slot>, ControllerError>) {
    if prepares == [] then Ok(map[])
    else
      var last := prepares[|prepares| - 1];
      var before := Enrol(jobId, prepares[..|prepares| - 1]);
      if before.Err? then before
      else if last.jobId != jobId then Err(JobMismatch(jobId, last.jobId))
      else if last.shard.agentName in before.value then Err(DuplicateAgent(last.shard.agentName))
      else Ok(before.value[last.shard.agentName := FreshSlot(last)])
  }

  /** Once a frame is refused, what follows it does not matter. */
  lemma {:induction false} EnrolStopsAtFirstError(jobId: string, prepares: seq<PrepareFrame>, k: nat)
    requires k <= |prepares| && Enrol(jobId, prepares[..k]).Err?
    ensures Enrol(jobId, prepares) == Enrol(jobId, prepares[..k])
  {
    if k == |prepares| {
      assert prepares[..k] == prepares;
    } else {
      var shorter := prepares[..|prepares| - 1];
      assert shorter[..k] == prepares[..k];
      EnrolStopsAtFirstError(jobId, shorter, k);
    }
  }

  function NewJob(prepares: seq<PrepareFrame>): Result<Job, ControllerError> {
    if prepares == [] then Err(EmptyCohort)
    else
      match Enrol(prepares[0].jobId, prepares)
      case Err(e) => Err(e)
      case Ok(agents) => Ok(Job(prepares[0].jobId, agents, None))
  }

  // ----- one agent frame

  function HelloProblem(agent: string, hello: HelloFrame, prepare: PrepareFrame): Option<ControllerError> {
    if hello.agentName.Some? && hello.agentName.value != agent then
      Some(AgentMismatch(agent, hello.agentName.value))
    else if prepare.plan.scenario !in hello.scenarios || hello.maxConcurrency < prepare.plan.concurrency then
      Some(CapabilityMismatch(agent))
    else None
  }

  function EvidenceProblem(agent: string, e: AgentEvidence): Option<ControllerError> {
    if EvidenceNames(agent, e) then None
    else Some(InvalidEvidence(agent, e.agentName, e.shard.agentName))
  }

  predicate FullyReady(ready: ReadyFrame, shard: AgentShard) {
    && ready.requestedWorkers == shard.concurrency
    && ready.liveWorkers == ready.requestedWorkers
    && ready.toolInventoryHash != ""
    && ready.targetProtocolVersion != ""
  }

  function SignatureOf(ready: ReadyFrame): Signature {
    Signature(ready.targetProtocolVersion, ready.toolInventoryHash)
  }

  function OnReady(jobId: string, sig: Option<Signature>, agent: string, slot: Slot, ready: ReadyFrame): SlotStep {
    if ready.jobId != jobId then SlotStep(slot, sig, Err(JobMismatch(jobId, ready.jobId)))
    else if ready.agentName != agent then SlotStep(slot, sig, Err(AgentMismatch(agent, ready.agentName)))
    else if !FullyReady(ready, slot.prepare.shard) then
      SlotStep(slot.(phase := IsFailed), sig,
        Err(ReadinessShortfall(agent, slot.prepare.shard.concurrency, ready.liveWorkers)))
    else if sig.Some? && ready.targetProtocolVersion != sig.value.protocolVersion then
      SlotStep(slot.(phase := IsFailed), sig,
        Err(TargetProtocolMismatch(agent, sig.value.protocolVersion, ready.targetProtocolVersion)))
    else if sig.Some? && ready.toolInventoryHash != sig.value.inventoryHash then
      SlotStep(slot.(phase := IsFailed), sig, Err(ToolInventoryMismatch(agent)))
    else
      SlotStep(slot.(phase := IsReady), Some(SignatureOf(ready)), Ok(None))
  }

  /** A checkpoint replaces the stored one only when its sequence is higher. */
  function Newer(latest: Option<Checkpoint>, c: Checkpoint): Option<Checkpoint> {
    if latest.None? || c.sequence > latest.value.sequence then Some(c) else latest
  }

  function OnMessage(jobId: string, sig: Option<Signature>, agent: string, slot: Slot, message: WireMessage): SlotStep {
    match (slot.phase, message)
    case (AwaitingHello, Hello(hello)) =>
      (match HelloProblem(agent, hello, slot.prepare)
       case Some(e) => SlotStep(slot, sig, Err(e))
       case None => SlotStep(slot.(phase := Preparing), sig, Ok(Some(Frame(Prepare(slot.prepare))))))
    case (Preparing, Ready(ready)) => OnReady(jobId, sig, agent, slot, ready)
    case (Running, Progress(p)) =>
      if p.jobId != jobId then SlotStep(slot, sig, Err(JobMismatch(jobId, p.jobId)))
      else if EvidenceProblem(agent, p.evidence).Some? then
        SlotStep(slot, sig, Err(EvidenceProblem(agent, p.evidence).value))
      else
        SlotStep(slot.(latestProgress := Newer(slot.latestProgress, Checkpoint(p.sequence, p.evidence))), sig, Ok(None))
    case (Running, Finished(f)) =>
      if f.jobId != jobId then SlotStep(slot, sig, Err(JobMismatch(jobId, f.jobId)))
      else if EvidenceProblem(agent, f.evidence).Some? then
        SlotStep(slot, sig, Err(EvidenceProblem(agent, f.evidence).value))
      else SlotStep(slot.(finalEvidence := Some(f.evidence), phase := IsFinished), sig, Ok(None))
    case (Cancelling, Cancelled(c)) =>
      if c.jobId != jobId then SlotStep(slot, sig, Err(JobMismatch(jobId, c.jobId)))
      else SlotStep(slot.(phase := IsCancelled), sig, Ok(None))
    case (_, Heartbeat(h)) =>
      if !(slot.phase.Preparing? || slot.phase.IsReady? || slot.phase.Running?) then
        SlotStep(slot, sig, Err(UnexpectedFrame(agent, slot.phase, message)))
      else if h.jobId != jobId then SlotStep(slot, sig, Err(JobMismatch(jobId, h.jobId)))
      else SlotStep(slot, sig, Ok(None))
    case (_, Failed(f)) =>
      if slot.phase.Terminal() then SlotStep(slot, sig, Err(UnexpectedFrame(agent, slot.phase, message)))
      else if f.jobId != jobId then SlotStep(slot, sig, Err(JobMismatch(jobId, f.jobId)))
      else SlotStep(slot.(failure := Some(f), phase := IsFailed), sig, Ok(None))
    case _ => SlotStep(slot, sig, Err(UnexpectedFrame(agent, slot.phase, message)))
  }

  function AcceptStep(j: Job, agent: string, message: WireMessage): SlotStep
    requires agent in j.agents
  {
    OnMessage(j.jobId, j.readySignature, agent, j.agents[agent], message)
  }

  function AcceptReply(j: Job, agent: string, frame: WireFrame): Reply {
    if frame.protocol != WIRE_PROTOCOL then Err(UnsupportedProtocol(frame.protocol))
    else if agent !in j.agents then Err(UnknownAgent(agent))
    else AcceptStep(j, agent, frame.message).reply
  }

  function Accept(j: Job, agent: string, frame: WireFrame): Job {
    if frame.protocol != WIRE_PROTOCOL || agent !in j.agents then j
    else
      var step := AcceptStep(j, agent, frame.message);
      Job(j.jobId, j.agents[agent := step.slot], step.signature)
  }

  // ----- cohort operations

  predicate AllReady(j: Job) {
    forall a :: a in j.agents ==> j.agents[a].phase.IsReady?
  }

  function StartMessage(j: Job, startAfterMs: u64): WireFrame {
    Frame(Start(StartFrame(j.jobId, startAfterMs)))
  }

  function CancelMessage(j: Job, reason: string): WireFrame {
    Frame(Cancel(CancelFrame(j.jobId, reason)))
  }

  function StartAll(j: Job): Job {
    if !AllReady(j) then j
    else j.(agents := map a | a in j.agents :: j.agents[a].(phase := Running))
  }

  function CancelledPhase(p: Phase): Phase {
    if p.Terminal() then p else if p.AwaitingHello? then IsCancelled else Cancelling
  }

  function CancelAll(j: Job): Job {
    j.(agents := map a | a in j.agents :: j.agents[a].(phase := CancelledPhase(j.agents[a].phase)))
  }

  /** The agents a cancellation frame goes to: every live one that knows the job id. */
  predicate GetsCancel(j: Job, a: string) {
    a in j.agents && !j.agents[a].phase.Terminal() && !j.agents[a].phase.AwaitingHello?
  }

  // ----- queries

  predicate AllTerminal(j: Job) {
    forall a :: a in j.agents ==> j.agents[a].phase.Terminal()
  }

  predicate HasFailure(j: Job) {
    exists a :: a in j.agents && j.agents[a].phase.IsFailed?
  }

  function LatestEvidence(j: Job, agent: string): Option<AgentEvidence> {
    if agent !in j.agents then None
    else if j.agents[agent].finalEvidence.Some? then j.agents[agent].finalEvidence
    else if j.agents[agent].latestProgress.Some? then Some(j.agents[agent].latestProgress.value.evidence)
    else None
  }
}
