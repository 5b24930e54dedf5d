/** What the controller's state tells of the frames it was given, in terms of the frames alone. */
module ControllerHistory {
  import opened Basics
  import opened Ordering
  import opened Protocol
  import opened ControllerSpec
  import opened ControllerRuns

  // ----- what one operation is about

  predicate Over(p: Phase) {
    p == IsFinished || p == IsFailed || p == IsCancelled
  }

  /** A frame of this wire protocol from agent `a`. */
  predicate From(c: Command, a: string) {
    c.Deliver? && c.agent == a && c.frame.protocol == "mcp-loadtest-dist/1"
  }

  /** The greeting the agent was waited for: nobody else's, of the planned scenario and size. */
  predicate Greets(j: Job, c: Command, a: string)
    requires a in j.agents
  {
    && From(c, a) && c.frame.message.Hello? && j.agents[a].phase == AwaitingHello
    && var hello, plan := c.frame.message.hello, j.agents[a].prepare.plan;
       && (hello.agentName == None || hello.agentName == Some(a))
       && plan.scenario in hello.scenarios && plan.concurrency <= hello.maxConcurrency
  }

  /** A readiness report of this job under the agent's own name, while it is preparing. */
  predicate Reports(j: Job, c: Command, a: string)
    requires a in j.agents
  {
    && From(c, a) && c.frame.message.Ready? && j.agents[a].phase == Preparing
    && c.frame.message.ready.jobId == j.jobId && c.frame.message.ready.agentName == a
  }

  /** The report is for all sessions of the shard and goes with what the others reported. */
  predicate InFull(j: Job, a: string, ready: ReadyFrame)
    requires a in j.agents
  {
    && ready.requestedWorkers == j.agents[a].prepare.shard.concurrency
    && ready.liveWorkers == j.agents[a].prepare.shard.concurrency
    && ready.toolInventoryHash != "" && ready.targetProtocolVersion != ""
    && (j.readySignature.Some? ==>
          && ready.targetProtocolVersion == j.readySignature.value.protocolVersion
          && ready.toolInventoryHash == j.readySignature.value.inventoryHash)
  }

  predicate Fails(j: Job, c: Command, a: string)
    requires a in j.agents
  {
    From(c, a) && c.frame.message.Failed? && c.frame.message.failed.jobId == j.jobId && !Over(j.agents[a].phase)
  }

  predicate OwnEvidence(a: string, e: AgentEvidence) {
    e.agentName == a && e.shard.agentName == a
  }

  predicate Finishes(j: Job, c: Command, a: string)
    requires a in j.agents
  {
    && From(c, a) && c.frame.message.Finished? && j.agents[a].phase == Running
    && c.frame.message.finished.jobId == j.jobId && OwnEvidence(a, c.frame.message.finished.evidence)
  }

  predicate Progresses(j: Job, c: Command, a: string)
    requires a in j.agents
  {
    && From(c, a) && c.frame.message.Progress? && j.agents[a].phase == Running
    && c.frame.message.progress.jobId == j.jobId && OwnEvidence(a, c.frame.message.progress.evidence)
  }

  predicate Beats(j: Job, c: Command, a: string)
    requires a in j.agents
  {
    && From(c, a) && c.frame.message.Heartbeat? && c.frame.message.heartbeat.jobId == j.jobId
    && (j.agents[a].phase == Preparing || j.agents[a].phase == IsReady || j.agents[a].phase == Running)
  }

  predicate Acknowledges(j: Job, c: Command, a: string)
    requires a in j.agents
  {
    From(c, a) && c.frame.message.Cancelled? && c.frame.message.cancelled.jobId == j.jobId && j.agents[a].phase == Cancelling
  }

  predicate EveryoneReady(j: Job) {
    forall b :: b in j.agents ==> j.agents[b].phase == IsReady
  }

  // ----- one operation

  /** Where one operation takes an agent. */
  lemma {:induction false} PhaseAfter(j: Job, c: Command, a: string)
    requires a in j.agents
    ensures a in Apply(j, c).agents
    ensures Apply(j, c).agents[a].phase == (
      if Over(j.agents[a].phase) then j.agents[a].phase
      else if c.Abort? then (if j.agents[a].phase == AwaitingHello then IsCancelled else Cancelling)
      else if c.Release? then (if EveryoneReady(j) then Running else j.agents[a].phase)
      else if Greets(j, c, a) then Preparing
      else if Reports(j, c, a) then (if InFull(j, a, c.frame.message.ready) then IsReady else IsFailed)
      else if Fails(j, c, a) then IsFailed
      else if Finishes(j, c, a) then IsFinished
      else if Acknowledges(j, c, a) then IsCancelled
      else j.agents[a].phase)
  {
    if c.Deliver? && c.agent != a {
      DeliveryIsLocal(j, c.agent, c.frame, a);
    }
  }

  /** What one operation stores for an agent. */
  lemma {:induction false} StoredAfter(j: Job, c: Command, a: string)
    requires a in j.agents
    ensures a in Apply(j, c).agents
    ensures var was, now := j.agents[a], Apply(j, c).agents[a];
      && now.prepare == was.prepare
      && now.failure == (if Fails(j, c, a) then Some(c.frame.message.failed) else was.failure)
      && now.finalEvidence == (if Finishes(j, c, a) then Some(c.frame.message.finished.evidence) else was.finalEvidence)
      && now.latestProgress == (
           if Progresses(j, c, a)
              && (was.latestProgress == None || was.latestProgress.value.sequence < c.frame.message.progress.sequence)
           then Some(Checkpoint(c.frame.message.progress.sequence, c.frame.message.progress.evidence))
           else was.latestProgress)
  {
    if c.Deliver? && c.agent != a {
      DeliveryIsLocal(j, c.agent, c.frame, a);
    }
  }

  /** The first full report fixes the signature of the cohort. */
  lemma {:induction false} SignatureAfter(j: Job, c: Command)
    ensures Apply(j, c).jobId == j.jobId
    ensures Apply(j, c).readySignature == (
      if c.Deliver? && c.agent in j.agents && Reports(j, c, c.agent) && InFull(j, c.agent, c.frame.message.ready)
      then Some(Signature(c.frame.message.ready.targetProtocolVersion, c.frame.message.ready.toolInventoryHash))
      else j.readySignature)
  {
  }

  /** A frame is answered, or refused for the first reason that applies. */
  lemma {:induction false} AnswerIs(j: Job, c: Command)
    requires c.Deliver?
    ensures var reply, a, m := AcceptReply(j, c.agent, c.frame), c.agent, c.frame.message;
      if c.frame.protocol != "mcp-loadtest-dist/1" then reply == Err(UnsupportedProtocol(c.frame.protocol))
      else if a !in j.agents then reply == Err(UnknownAgent(a))
      else if Greets(j, c, a) then reply == Ok(Some(WireFrame("mcp-loadtest-dist/1", Prepare(j.agents[a].prepare))))
      else if Reports(j, c, a) then Judged(j, a, m.ready, reply)
      else if Fails(j, c, a) || Finishes(j, c, a) || Progresses(j, c, a) || Beats(j, c, a) || Acknowledges(j, c, a) then
        reply == Ok(None)
      else Refused(j, a, m, reply)
  {
  }

  /** The answer to a readiness report. */
  predicate Judged(j: Job, a: string, ready: ReadyFrame, reply: Reply)
    requires a in j.agents
  {
    if InFull(j, a, ready) then reply == Ok(None)
    else if InFull(j.(readySignature := None), a, ready) then
      var was := j.readySignature.value;
      if ready.targetProtocolVersion != was.protocolVersion then
        reply == Err(TargetProtocolMismatch(a, was.protocolVersion, ready.targetProtocolVersion))
      else reply == Err(ToolInventoryMismatch(a))
    else reply == Err(ReadinessShortfall(a, j.agents[a].prepare.shard.concurrency, ready.liveWorkers))
  }

  /** Frames of this kind are listened to in this phase. */
  predicate Expected(p: Phase, m: WireMessage) {
    || (p == AwaitingHello && m.Hello?) || (p == Preparing && m.Ready?)
    || (p == Running && (m.Progress? || m.Finished?)) || (p == Cancelling && m.Cancelled?)
    || ((p == Preparing || p == IsReady || p == Running) && m.Heartbeat?)
    || (!Over(p) && m.Failed?)
  }

  /** Why a frame that does nothing is refused. */
  predicate Refused(j: Job, a: string, m: WireMessage, reply: Reply)
    requires a in j.agents
  {
    if !Expected(j.agents[a].phase, m) then reply == Err(UnexpectedFrame(a, j.agents[a].phase, m))
    else if m.Hello? then
      if m.hello.agentName != None && m.hello.agentName != Some(a) then
        reply == Err(AgentMismatch(a, m.hello.agentName.value))
      else reply == Err(CapabilityMismatch(a))
    else if m.JobId() != Some(j.jobId) then m.JobId().Some? && reply == Err(JobMismatch(j.jobId, m.JobId().value))
    else if m.Ready? then reply == Err(AgentMismatch(a, m.ready.agentName))
    else if m.Progress? then
      reply == Err(InvalidEvidence(a, m.progress.evidence.agentName, m.progress.evidence.shard.agentName))
    else m.Finished? && reply == Err(InvalidEvidence(a, m.finished.evidence.agentName, m.finished.evidence.shard.agentName))
  }

  // ----- whole runs: why an agent is where it is

  /** Operation `k` of the run, and the state it finds. */
  predicate FailsAt(j: Job, cs: seq<Command>, a: string, k: nat)
    requires k < |cs|
  {
    a in Run(j, cs[..k]).agents && Fails(Run(j, cs[..k]), cs[k], a)
  }

  predicate MisreportsAt(j: Job, cs: seq<Command>, a: string, k: nat)
    requires k < |cs|
  {
    var before := Run(j, cs[..k]);
    a in before.agents && Reports(before, cs[k], a) && !InFull(before, a, cs[k].frame.message.ready)
  }

  predicate AcknowledgesAt(j: Job, cs: seq<Command>, a: string, k: nat)
    requires k < |cs|
  {
    a in Run(j, cs[..k]).agents && Acknowledges(Run(j, cs[..k]), cs[k], a)
  }

  predicate DroppedAt(j: Job, cs: seq<Command>, a: string, k: nat)
    requires k < |cs|
  {
    cs[k].Abort? && a in Run(j, cs[..k]).agents && Run(j, cs[..k]).agents[a].phase == AwaitingHello
  }

  predicate FinishesAt(j: Job, cs: seq<Command>, a: string, k: nat)
    requires k < |cs|
  {
    a in Run(j, cs[..k]).agents && Finishes(Run(j, cs[..k]), cs[k], a)
  }

  predicate FailureIn(j: Job, cs: seq<Command>, a: string) {
    exists k :: 0 <= k < |cs| && (FailsAt(j, cs, a, k) || MisreportsAt(j, cs, a, k))
  }

  predicate CancelledIn(j: Job, cs: seq<Command>, a: string) {
    exists k :: 0 <= k < |cs| && (AcknowledgesAt(j, cs, a, k) || DroppedAt(j, cs, a, k))
  }

  predicate FinishIn(j: Job, cs: seq<Command>, a: string) {
    exists k :: 0 <= k < |cs| && FinishesAt(j, cs, a, k)
  }

  function FailedFrameOf(c: Command): Option<FailedFrame> {
    if c.Deliver? && c.frame.message.Failed? then Some(c.frame.message.failed) else None
  }

  /** Some operation delivered exactly this failed frame, while the agent was not over. */
  predicate FailureHeld(j: Job, cs: seq<Command>, a: string, f: FailedFrame) {
    exists k :: 0 <= k < |cs| && FailsAt(j, cs, a, k) && FailedFrameOf(cs[k]) == Some(f)
  }

  lemma {:induction false} SameAt(j: Job, cs: seq<Command>, a: string, k: nat)
    requires k < |cs| - 1
    ensures var shorter := cs[..|cs| - 1];
      && shorter[k] == cs[k]
      && FailsAt(j, shorter, a, k) == FailsAt(j, cs, a, k) && MisreportsAt(j, shorter, a, k) == MisreportsAt(j, cs, a, k)
      && AcknowledgesAt(j, shorter, a, k) == AcknowledgesAt(j, cs, a, k)
      && DroppedAt(j, shorter, a, k) == DroppedAt(j, cs, a, k) && FinishesAt(j, shorter, a, k) == FinishesAt(j, cs, a, k)
  {
    assert cs[..|cs| - 1][..k] == cs[..k];
    hide Run, Fails, Reports, InFull, Acknowledges, Finishes;
  }

  lemma {:induction false} FailureSnoc(j: Job, cs: seq<Command>, a: string)
    requires cs != []
    ensures FailureIn(j, cs, a) <==>
      FailureIn(j, cs[..|cs| - 1], a) || FailsAt(j, cs, a, |cs| - 1) || MisreportsAt(j, cs, a, |cs| - 1)
  {
    hide FailsAt, MisreportsAt;
    var shorter, n := cs[..|cs| - 1], |cs| - 1;
    if FailureIn(j, cs, a) {
      var k :| 0 <= k < |cs| && (FailsAt(j, cs, a, k) || MisreportsAt(j, cs, a, k));
      if k < n {
        SameAt(j, cs, a, k);
      }
    }
    if FailureIn(j, shorter, a) {
      var k :| 0 <= k < n && (FailsAt(j, shorter, a, k) || MisreportsAt(j, shorter, a, k));
      SameAt(j, cs, a, k);
    }
  }

  lemma {:induction false} CancelledSnoc(j: Job, cs: seq<Command>, a: string)
    requires cs != []
    ensures CancelledIn(j, cs, a) <==>
      CancelledIn(j, cs[..|cs| - 1], a) || AcknowledgesAt(j, cs, a, |cs| - 1) || DroppedAt(j, cs, a, |cs| - 1)
  {
    hide AcknowledgesAt, DroppedAt;
    var shorter, n := cs[..|cs| - 1], |cs| - 1;
    if CancelledIn(j, cs, a) {
      var k :| 0 <= k < |cs| && (AcknowledgesAt(j, cs, a, k) || DroppedAt(j, cs, a, k));
      if k < n {
        SameAt(j, cs, a, k);
      }
    }
    if CancelledIn(j, shorter, a) {
      var k :| 0 <= k < n && (AcknowledgesAt(j, shorter, a, k) || DroppedAt(j, shorter, a, k));
      SameAt(j, cs, a, k);
    }
  }

  lemma {:induction false} FinishSnoc(j: Job, cs: seq<Command>, a: string)
    requires cs != []
    ensures FinishIn(j, cs, a) <==> FinishIn(j, cs[..|cs| - 1], a) || FinishesAt(j, cs, a, |cs| - 1)
  {
    hide FinishesAt;
    var shorter, n := cs[..|cs| - 1], |cs| - 1;
    if FinishIn(j, cs, a) {
      var k :| 0 <= k < |cs| && FinishesAt(j, cs, a, k);
      if k < n {
        SameAt(j, cs, a, k);
      }
    }
    if FinishIn(j, shorter, a) {
      var k :| 0 <= k < n && FinishesAt(j, shorter, a, k);
      SameAt(j, cs, a, k);
    }
  }

  lemma {:induction false} HeldSnoc(j: Job, cs: seq<Command>, a: string, f: FailedFrame)
    requires cs != []
    ensures FailureHeld(j, cs, a, f) <==>
      FailureHeld(j, cs[..|cs| - 1], a, f) || (FailsAt(j, cs, a, |cs| - 1) && FailedFrameOf(cs[|cs| - 1]) == Some(f))
  {
    hide FailsAt, FailedFrameOf;
    var shorter, n := cs[..|cs| - 1], |cs| - 1;
    if FailureHeld(j, cs, a, f) {
      var k :| 0 <= k < |cs| && FailsAt(j, cs, a, k) && FailedFrameOf(cs[k]) == Some(f);
      if k < n {
        SameAt(j, cs, a, k);
      }
    }
    if FailureHeld(j, shorter, a, f) {
      var k :| 0 <= k < n && FailsAt(j, shorter, a, k) && FailedFrameOf(shorter[k]) == Some(f);
      SameAt(j, cs, a, k);
    }
  }

  /** In every state of every run: an agent has failed if and only if some delivered frame was a failed
      frame of this job while the agent was not over yet, or a readiness report that is short or at odds
      with the cohort; it is cancelled if and only if it acknowledged while cancelling or was given up
      before its greeting; it has finished if and only if a finished frame with its own evidence was
      delivered while it was running. */
  lemma {:induction false} EndsIff(j: Job, cs: seq<Command>, a: string)
    requires a in j.agents && j.agents[a].phase == AwaitingHello
    ensures a in Run(j, cs).agents
    ensures Run(j, cs).agents[a].phase == IsFailed <==> FailureIn(j, cs, a)
    ensures Run(j, cs).agents[a].phase == IsCancelled <==> CancelledIn(j, cs, a)
    ensures Run(j, cs).agents[a].phase == IsFinished <==> FinishIn(j, cs, a)
  {
    if cs != [] {
      var shorter, last := cs[..|cs| - 1], cs[|cs| - 1];
      EndsIff(j, shorter, a);
      FailureSnoc(j, cs, a);
      CancelledSnoc(j, cs, a);
      FinishSnoc(j, cs, a);
      hide Apply, FailureIn, CancelledIn, FinishIn, InFull;
      PhaseAfter(Run(j, shorter), last, a);
    }
  }

  /** The stored failure is exactly the failed frame that was delivered, and there is none unless one was. */
  lemma {:induction false} FailureIsHeld(j: Job, cs: seq<Command>, a: string)
    requires a in j.agents && j.agents[a].phase == AwaitingHello && j.agents[a].failure == None
    ensures a in Run(j, cs).agents
    ensures forall f :: Run(j, cs).agents[a].failure == Some(f) <==> FailureHeld(j, cs, a, f)
  {
    if cs != [] {
      var shorter, last := cs[..|cs| - 1], cs[|cs| - 1];
      FailureIsHeld(j, shorter, a);
      EndsIff(j, shorter, a);
      StoredAfter(Run(j, shorter), last, a);
      forall f ensures FailureHeld(j, cs, a, f) <==>
        FailureHeld(j, shorter, a, f) || (FailsAt(j, cs, a, |cs| - 1) && FailedFrameOf(last) == Some(f))
      {
        HeldSnoc(j, cs, a, f);
      }
      hide Apply, FailureIn, FailureHeld;
      if FailsAt(j, cs, a, |cs| - 1) {
        NoFailureBefore(j, shorter, a);
      }
    }
  }

  lemma {:induction false} NoFailureBefore(j: Job, cs: seq<Command>, a: string)
    requires a in j.agents && j.agents[a].phase == AwaitingHello
    requires a in Run(j, cs).agents && !Over(Run(j, cs).agents[a].phase)
    ensures forall f :: !FailureHeld(j, cs, a, f)
  {
    EndsIff(j, cs, a);
    hide Run, FailsAt;
  }

  /** The controller reports a failure if and only if some agent failed or misreported. */
  lemma {:induction false} FailureSeenIff(j: Job, cs: seq<Command>)
    requires Invariant(j) && forall a :: a in j.agents ==> j.agents[a].phase == AwaitingHello
    ensures HasFailure(Run(j, cs)) <==> exists a :: a in j.agents && FailureIn(j, cs, a)
  {
    RunKeeps(j, cs);
    hide Run, FailureIn, SlotKept;
    forall a | a in j.agents ensures a in Run(j, cs).agents && (Run(j, cs).agents[a].phase == IsFailed <==> FailureIn(j, cs, a)) {
      EndsIff(j, cs, a);
    }
    assert forall a :: a in Run(j, cs).agents ==> a in j.agents.Keys;
    if a :| a in j.agents && FailureIn(j, cs, a) {
      assert Run(j, cs).agents[a].phase.IsFailed?;
    }
  }

  /** And that it is over if and only if each agent failed, finished or was cancelled. */
  lemma {:induction false} OverIff(j: Job, cs: seq<Command>)
    requires Invariant(j) && forall a :: a in j.agents ==> j.agents[a].phase == AwaitingHello
    ensures AllTerminal(Run(j, cs)) <==>
      forall a :: a in j.agents ==> FailureIn(j, cs, a) || FinishIn(j, cs, a) || CancelledIn(j, cs, a)
  {
    RunKeeps(j, cs);
    hide Run, FailureIn, FinishIn, CancelledIn, SlotKept;
    assert forall a :: a in Run(j, cs).agents <==> a in j.agents.Keys;
    forall a | a in j.agents
      ensures a in Run(j, cs).agents
      ensures Run(j, cs).agents[a].phase.Terminal() <==> FailureIn(j, cs, a) || FinishIn(j, cs, a) || CancelledIn(j, cs, a)
    {
      EndsIff(j, cs, a);
    }
  }
}
