/** The worker side of the protocol: its state as a value, and the class that updates it in place. */
module Agent {
  import opened Basics
  import opened Protocol

  datatype AgentPhase =
    | AwaitingPrepare | AgentPreparing | AgentReady | AgentRunning
    | AgentFinished | AgentFailed | AgentCancelling | AgentCancelled

  datatype AgentError =
    | UnsupportedProtocol(got: string)
    | JobMismatch(expectedJob: string, gotJob: string)
    | AgentMismatch(expectedAgent: string, gotAgent: string)
    | JobNotPrepared
    | WrongPhase(expected: AgentPhase, actual: AgentPhase)
    | UnexpectedFrame(phase: AgentPhase, message: WireMessage)
    | InvalidEvidence(expectedAgent: string, evidenceAgent: string, shardAgent: string)

  datatype AgentDirective = DoPrepare(prepare: PrepareFrame) | DoStart(start: StartFrame) | DoCancel(cancel: CancelFrame)

  datatype AgentState = AgentState(
    hello: HelloFrame, phase: AgentPhase, jobId: Option<string>, boundAgentName: Option<string>)

  /** The state after a call, and what the call returned. */
  datatype Step<T> = Step(agent: AgentState, reply: Result<T, AgentError>)

  function NewAgent(hello: HelloFrame): AgentState {
    AgentState(hello, AwaitingPrepare, None, None)
  }

  function JobProblem(a: AgentState, got: string): Option<AgentError> {
    if a.jobId.None? then Some(JobNotPrepared)
    else if got != a.jobId.value then Some(JobMismatch(a.jobId.value, got))
    else None
  }

  function PhaseProblem(a: AgentState, expected: AgentPhase): Option<AgentError> {
    if a.phase == expected then None else Some(WrongPhase(expected, a.phase))
  }

  function EvidenceProblem(a: AgentState, e: AgentEvidence): Option<AgentError> {
    if a.boundAgentName.None? then Some(JobNotPrepared)
    else if EvidenceNames(a.boundAgentName.value, e) then None
    else Some(InvalidEvidence(a.boundAgentName.value, e.agentName, e.shard.agentName))
  }

  predicate Cancellable(p: AgentPhase) {
    !p.AgentFinished? && !p.AgentFailed? && !p.AgentCancelled? && !p.AwaitingPrepare?
  }

  function AcceptFrame(a: AgentState, frame: WireFrame): Step<AgentDirective> {
    if frame.protocol != WIRE_PROTOCOL then Step(a, Err(UnsupportedProtocol(frame.protocol)))
    else
      match frame.message
      case Prepare(p) =>
        if !a.phase.AwaitingPrepare? then Step(a, Err(UnexpectedFrame(a.phase, frame.message)))
        else if a.hello.agentName.Some? && a.hello.agentName.value != p.shard.agentName then
          Step(a, Err(AgentMismatch(a.hello.agentName.value, p.shard.agentName)))
        else
          Step(a.(jobId := Some(p.jobId), boundAgentName := Some(p.shard.agentName), phase := AgentPreparing),
               Ok(DoPrepare(p)))
      case Start(s) =>
        if !a.phase.AgentReady? then Step(a, Err(UnexpectedFrame(a.phase, frame.message)))
        else if JobProblem(a, s.jobId).Some? then Step(a, Err(JobProblem(a, s.jobId).value))
        else Step(a.(phase := AgentRunning), Ok(DoStart(s)))
      case Cancel(c) =>
        if !Cancellable(a.phase) then Step(a, Err(UnexpectedFrame(a.phase, frame.message)))
        else if JobProblem(a, c.jobId).Some? then Step(a, Err(JobProblem(a, c.jobId).value))
        else Step(a.(phase := AgentCancelling), Ok(DoCancel(c)))
      case _ => Step(a, Err(UnexpectedFrame(a.phase, frame.message)))
  }

  function MarkReady(a: AgentState, ready: ReadyFrame): Step<WireFrame> {
    if PhaseProblem(a, AgentPreparing).Some? then Step(a, Err(PhaseProblem(a, AgentPreparing).value))
    else if JobProblem(a, ready.jobId).Some? then Step(a, Err(JobProblem(a, ready.jobId).value))
    else if a.boundAgentName.None? then Step(a, Err(JobNotPrepared))
    else if ready.agentName != a.boundAgentName.value then
      Step(a, Err(AgentMismatch(a.boundAgentName.value, ready.agentName)))
    else Step(a.(phase := AgentReady), Ok(Frame(Ready(ready))))
  }

  function SendProgress(a: AgentState, sequence: u64, e: AgentEvidence): Result<WireFrame, AgentError> {
    if PhaseProblem(a, AgentRunning).Some? then Err(PhaseProblem(a, AgentRunning).value)
    else if EvidenceProblem(a, e).Some? then Err(EvidenceProblem(a, e).value)
    else if a.jobId.None? then Err(JobNotPrepared)
    else Ok(Frame(Progress(ProgressFrame(a.jobId.value, sequence, e))))
  }

  function SendHeartbeat(a: AgentState, sequence: u64): Result<WireFrame, AgentError> {
    if !(a.phase.AgentPreparing? || a.phase.AgentReady? || a.phase.AgentRunning?) then
      Err(WrongPhase(AgentRunning, a.phase))
    else if a.jobId.None? then Err(JobNotPrepared)
    else Ok(Frame(Heartbeat(HeartbeatFrame(a.jobId.value, sequence))))
  }

  /** The phase is already replaced when the job id turns out to be missing. */
  function Finish(a: AgentState, e: AgentEvidence): Step<WireFrame> {
    if PhaseProblem(a, AgentRunning).Some? then Step(a, Err(PhaseProblem(a, AgentRunning).value))
    else if EvidenceProblem(a, e).Some? then Step(a, Err(EvidenceProblem(a, e).value))
    else if a.jobId.None? then Step(a.(phase := AgentFinished), Err(JobNotPrepared))
    else Step(a.(phase := AgentFinished), Ok(Frame(Finished(FinishedFrame(a.jobId.value, e)))))
  }

  /** No phase is required: any prepared agent may fail, even one that already finished. */
  function Fail(a: AgentState, code: string, message: string, retryable: bool): Step<WireFrame> {
    if a.jobId.None? then Step(a, Err(JobNotPrepared))
    else Step(a.(phase := AgentFailed), Ok(Frame(Failed(FailedFrame(a.jobId.value, code, message, retryable)))))
  }

  function AcknowledgeCancel(a: AgentState, reason: string): Step<WireFrame> {
    if PhaseProblem(a, AgentCancelling).Some? then Step(a, Err(PhaseProblem(a, AgentCancelling).value))
    else if a.jobId.None? then Step(a, Err(JobNotPrepared))
    else Step(a.(phase := AgentCancelled), Ok(Frame(Cancelled(CancelledFrame(a.jobId.value, reason)))))
  }

  /** An agent is bound to its job and name by the prepare frame, and only then. */
  predicate Bound(a: AgentState) {
    && (a.jobId.Some? <==> a.boundAgentName.Some?)
    && (a.phase.AwaitingPrepare? <==> a.jobId.None?)
  }

  /** Same job and same name. */
  predicate SameBinding(a: AgentState, b: AgentState) {
    b.jobId == a.jobId && b.boundAgentName == a.boundAgentName
  }

  /** No call unbinds an agent or binds it to something else: only the first prepare frame binds, and
      the calls that make the agent speak leave the binding as it is. */
  lemma {:induction false} AgentKeepsBinding(a: AgentState, frame: WireFrame, ready: ReadyFrame, e: AgentEvidence,
        code: string, message: string, reason: string, retryable: bool)
    requires Bound(a)
    ensures Bound(AcceptFrame(a, frame).agent) && Bound(MarkReady(a, ready).agent) && Bound(Finish(a, e).agent)
    ensures Bound(Fail(a, code, message, retryable).agent) && Bound(AcknowledgeCancel(a, reason).agent)
    ensures SameBinding(a, AcceptFrame(a, frame).agent) <==>
      !(a.phase.AwaitingPrepare? && AcceptFrame(a, frame).reply.Ok?)
    ensures a.jobId.Some? ==> SameBinding(a, AcceptFrame(a, frame).agent)
    ensures SameBinding(a, MarkReady(a, ready).agent) && SameBinding(a, Finish(a, e).agent)
    ensures SameBinding(a, Fail(a, code, message, retryable).agent)
    ensures SameBinding(a, AcknowledgeCancel(a, reason).agent)
  {
  }

  predicate AgentTerminal(p: AgentPhase) {
    p.AgentFinished? || p.AgentFailed? || p.AgentCancelled?
  }

  /** An agent's terminal phases are not absorbing: every call leaves them alone except `Fail`, which
      moves a finished or cancelled agent to failed. The controller's are (see `SlotKept`). */
  lemma {:induction false} OnlyFailLeavesTerminal(a: AgentState, frame: WireFrame, ready: ReadyFrame,
        e: AgentEvidence, code: string, message: string, reason: string, retryable: bool)
    requires Bound(a) && AgentTerminal(a.phase)
    ensures AcceptFrame(a, frame).agent == a && MarkReady(a, ready).agent == a && Finish(a, e).agent == a
    ensures AcknowledgeCancel(a, reason).agent == a
    ensures Fail(a, code, message, retryable).reply.Ok?
    ensures Fail(a, code, message, retryable).agent == a <==> a.phase.AgentFailed?
  {
  }

  // ----- every call, in terms of its arguments

  /** Reporting ready: when, what is sent, and why not. */
  lemma {:induction false} ReadyMeans(a: AgentState, ready: ReadyFrame)
    ensures var r := MarkReady(a, ready);
      if a.phase == AgentPreparing && a.jobId == Some(ready.jobId) && a.boundAgentName == Some(ready.agentName) then
        r == Step(a.(phase := AgentReady), Ok(WireFrame("mcp-loadtest-dist/1", Ready(ready))))
      else
        && r.agent == a && r.reply.Err?
        && r.reply.error == (
             if a.phase != AgentPreparing then WrongPhase(AgentPreparing, a.phase)
             else if a.jobId == None then JobNotPrepared
             else if a.jobId != Some(ready.jobId) then JobMismatch(a.jobId.value, ready.jobId)
             else if a.boundAgentName == None then JobNotPrepared
             else AgentMismatch(a.boundAgentName.value, ready.agentName))
  {
  }

  /** Evidence may be sent in this phase: it names the bound agent twice. */
  predicate MaySend(a: AgentState, e: AgentEvidence) {
    && a.phase == AgentRunning && a.jobId.Some?
    && a.boundAgentName == Some(e.agentName) && a.boundAgentName == Some(e.shard.agentName)
  }

  function WhyNotSent(a: AgentState, e: AgentEvidence): AgentError {
    if a.phase != AgentRunning then WrongPhase(AgentRunning, a.phase)
    else if a.boundAgentName == None then JobNotPrepared
    else if a.boundAgentName.value != e.agentName || a.boundAgentName.value != e.shard.agentName then
      InvalidEvidence(a.boundAgentName.value, e.agentName, e.shard.agentName)
    else JobNotPrepared
  }

  /** Checkpoints and the final report carry the caller's sequence and evidence, under the bound job. */
  lemma {:induction false} EvidenceMeans(a: AgentState, sequence: u64, e: AgentEvidence)
    requires Bound(a)
    ensures SendProgress(a, sequence, e) == (
      if MaySend(a, e) then Ok(WireFrame("mcp-loadtest-dist/1", Progress(ProgressFrame(a.jobId.value, sequence, e))))
      else Err(WhyNotSent(a, e)))
    ensures Finish(a, e) == (
      if MaySend(a, e) then
        Step(a.(phase := AgentFinished), Ok(WireFrame("mcp-loadtest-dist/1", Finished(FinishedFrame(a.jobId.value, e)))))
      else Step(a, Err(WhyNotSent(a, e))))
  {
  }

  /** A heartbeat carries the caller's sequence; it is possible from preparation to the end of the run. */
  lemma {:induction false} HeartbeatMeans(a: AgentState, sequence: u64)
    ensures SendHeartbeat(a, sequence) == (
      if a.phase != AgentPreparing && a.phase != AgentReady && a.phase != AgentRunning then
        Err(WrongPhase(AgentRunning, a.phase))
      else if a.jobId == None then Err(JobNotPrepared)
      else Ok(WireFrame("mcp-loadtest-dist/1", Heartbeat(HeartbeatFrame(a.jobId.value, sequence)))))
  {
  }

  /** A failure carries the caller's code, message and verdict; an acknowledgement the caller's reason. */
  lemma {:induction false} EndMeans(a: AgentState, code: string, message: string, retryable: bool, reason: string)
    ensures Fail(a, code, message, retryable) == (
      if a.jobId == None then Step(a, Err(JobNotPrepared))
      else Step(a.(phase := AgentFailed),
        Ok(WireFrame("mcp-loadtest-dist/1", Failed(FailedFrame(a.jobId.value, code, message, retryable))))))
    ensures AcknowledgeCancel(a, reason) == (
      if a.phase != AgentCancelling then Step(a, Err(WrongPhase(AgentCancelling, a.phase)))
      else if a.jobId == None then Step(a, Err(JobNotPrepared))
      else Step(a.(phase := AgentCancelled),
        Ok(WireFrame("mcp-loadtest-dist/1", Cancelled(CancelledFrame(a.jobId.value, reason))))))
  {
  }

  /** A frame of the controller becomes a directive that carries it, in the phases that await it and for the
      bound job. */
  lemma {:induction false} FrameMeans(a: AgentState, frame: WireFrame)
    ensures var r, m := AcceptFrame(a, frame), frame.message;
      if frame.protocol != "mcp-loadtest-dist/1" then r == Step(a, Err(UnsupportedProtocol(frame.protocol)))
      else if m.Prepare? && a.phase == AwaitingPrepare then
        if a.hello.agentName == None || a.hello.agentName == Some(m.prepare.shard.agentName) then
          r == Step(AgentState(a.hello, AgentPreparing, Some(m.prepare.jobId), Some(m.prepare.shard.agentName)),
                    Ok(DoPrepare(m.prepare)))
        else r == Step(a, Err(AgentMismatch(a.hello.agentName.value, m.prepare.shard.agentName)))
      else if (m.Start? && a.phase == AgentReady)
           || (m.Cancel? && (a.phase == AgentPreparing || a.phase == AgentReady || a.phase == AgentRunning
                             || a.phase == AgentCancelling)) then
        var got := if m.Start? then m.start.jobId else m.cancel.jobId;
        if a.jobId == Some(got) then
          r == (if m.Start? then Step(a.(phase := AgentRunning), Ok(DoStart(m.start)))
                else Step(a.(phase := AgentCancelling), Ok(DoCancel(m.cancel))))
        else r == Step(a, Err(if a.jobId == None then JobNotPrepared else JobMismatch(a.jobId.value, got)))
      else r == Step(a, Err(UnexpectedFrame(a.phase, m)))
  {
  }

  class AgentStateMachine {
    const hello: HelloFrame
    var phase: AgentPhase
    var jobId: Option<string>
    var boundAgentName: Option<string>

    function View(): AgentState
      reads this
    {
      AgentState(hello, phase, jobId, boundAgentName)
    }

    constructor (hello: HelloFrame)
      ensures View() == NewAgent(hello)
    {
      this.hello := hello;
      phase := AwaitingPrepare;
      jobId := None;
      boundAgentName := None;
    }

    method Accept(frame: WireFrame) returns (r: Result<AgentDirective, AgentError>)
      modifies this
      ensures Step(View(), r) == AcceptFrame(old(View()), frame)
    {
      if frame.protocol != WIRE_PROTOCOL {
        return Err(UnsupportedProtocol(frame.protocol));
      }
      if phase.AwaitingPrepare? && frame.message.Prepare? {
        var prepare := frame.message.prepare;
        if hello.agentName.Some? && hello.agentName.value != prepare.shard.agentName {
          return Err(AgentMismatch(hello.agentName.value, prepare.shard.agentName));
        }
        jobId := Some(prepare.jobId);
        boundAgentName := Some(prepare.shard.agentName);
        phase := AgentPreparing;
        return Ok(DoPrepare(prepare));
      } else if phase.AgentReady? && frame.message.Start? {
        var problem := JobProblem(View(), frame.message.start.jobId);
        if problem.Some? {
          return Err(problem.value);
        }
        phase := AgentRunning;
        return Ok(DoStart(frame.message.start));
      } else if frame.message.Cancel? && Cancellable(phase) {
        var problem := JobProblem(View(), frame.message.cancel.jobId);
        if problem.Some? {
          return Err(problem.value);
        }
        phase := AgentCancelling;
        return Ok(DoCancel(frame.message.cancel));
      } else {
        return Err(UnexpectedFrame(phase, frame.message));
      }
    }

    method BecomeReady(ready: ReadyFrame) returns (r: Result<WireFrame, AgentError>)
      modifies this`phase
      ensures Step(View(), r) == MarkReady(old(View()), ready)
    {
      if phase != AgentPreparing {
        return Err(WrongPhase(AgentPreparing, phase));
      }
      var problem := JobProblem(View(), ready.jobId);
      if problem.Some? {
        return Err(problem.value);
      }
      if boundAgentName.None? {
        return Err(JobNotPrepared);
      }
      if ready.agentName != boundAgentName.value {
        return Err(AgentMismatch(boundAgentName.value, ready.agentName));
      }
      phase := AgentReady;
      return Ok(Frame(Ready(ready)));
    }

    method Checkpoint(sequence: u64, evidence: AgentEvidence) returns (r: Result<WireFrame, AgentError>)
      ensures r == SendProgress(View(), sequence, evidence)
    {
      if phase != AgentRunning {
        return Err(WrongPhase(AgentRunning, phase));
      }
      var problem := EvidenceProblem(View(), evidence);
      if problem.Some? {
        return Err(problem.value);
      }
      if jobId.None? {
        return Err(JobNotPrepared);
      }
      return Ok(Frame(Progress(ProgressFrame(jobId.value, sequence, evidence))));
    }

    method Beat(sequence: u64) returns (r: Result<WireFrame, AgentError>)
      ensures r == SendHeartbeat(View(), sequence)
    {
      if !(phase.AgentPreparing? || phase.AgentReady? || phase.AgentRunning?) {
        return Err(WrongPhase(AgentRunning, phase));
      }
      if jobId.None? {
        return Err(JobNotPrepared);
      }
      return Ok(Frame(Heartbeat(HeartbeatFrame(jobId.value, sequence))));
    }

    method Complete(evidence: AgentEvidence) returns (r: Result<WireFrame, AgentError>)
      modifies this`phase
      ensures Step(View(), r) == Finish(old(View()), evidence)
    {
      if phase != AgentRunning {
        return Err(WrongPhase(AgentRunning, phase));
      }
      var problem := EvidenceProblem(View(), evidence);
      if problem.Some? {
        return Err(problem.value);
      }
      phase := AgentFinished;
      if jobId.None? {
        return Err(JobNotPrepared);
      }
      return Ok(Frame(Finished(FinishedFrame(jobId.value, evidence))));
    }

    method GiveUp(code: string, message: string, retryable: bool) returns (r: Result<WireFrame, AgentError>)
      modifies this`phase
      ensures Step(View(), r) == Fail(old(View()), code, message, retryable)
    {
      if jobId.None? {
        return Err(JobNotPrepared);
      }
      phase := AgentFailed;
      return Ok(Frame(Failed(FailedFrame(jobId.value, code, message, retryable))));
    }

    method Acknowledge(reason: string) returns (r: Result<WireFrame, AgentError>)
      modifies this`phase
      ensures Step(View(), r) == AcknowledgeCancel(old(View()), reason)
    {
      if phase != AgentCancelling {
        return Err(WrongPhase(AgentCancelling, phase));
      }
      if jobId.None? {
        return Err(JobNotPrepared);
      }
      phase := AgentCancelled;
      return Ok(Frame(Cancelled(CancelledFrame(jobId.value, reason))));
    }
  }
}
