/** After a cancellation: when the cohort can still come to an end. */
module Cancellation {
  import opened Basics
  import opened Ordering
  import opened Protocol
  import opened ControllerSpec
  import opened Agent
  import opened Network
  import C = ControllerRuns

  predicate SomeFailed(fs: seq<WireFrame>) {
    exists f :: f in fs && f.message.Failed?
  }

  predicate SomeCancelled(fs: seq<WireFrame>) {
    exists f :: f in fs && f.message.Cancelled?
  }

  predicate SomeCancel(fs: seq<WireFrame>) {
    exists f :: f in fs && f.message.Cancel?
  }

  /** The agent has not ended and does not know of a cancellation. */
  predicate Unaware(p: AgentPhase) {
    p.AwaitingPrepare? || p.AgentPreparing? || p.AgentReady? || p.AgentRunning?
  }

  /** The controller has sent a prepare frame and neither cancelled the agent nor seen it end. */
  predicate Live(p: Phase) {
    p.Preparing? || p.IsReady? || p.Running?
  }

  /** An agent that has not taken its prepare frame finds it first in its queue. */
  predicate PrepareFirst(p: Peer) {
    p.agent.phase.AwaitingPrepare? ==> p.down != [] && p.down[0].message.Prepare?
  }

  /** A failure or an acknowledgement in flight is the last word of its agent. */
  predicate LastWords(p: Peer) {
    && (SomeFailed(p.up) ==> p.agent.phase.AgentFailed?)
    && (SomeCancelled(p.up) ==> p.agent.phase.AgentCancelled? || p.agent.phase.AgentFailed?)
  }

  /** What can be in flight on a link, as far as its end is concerned. */
  predicate Closing(slot: Slot, p: Peer) {
    && LastWords(p)
    && (slot.phase.AwaitingHello? ==> p.agent.phase.AwaitingPrepare? && p.down == [])
    && (Live(slot.phase) ==>
          && PrepareFirst(p) && !SomeCancel(p.down)
          && !p.agent.phase.AgentCancelling? && !p.agent.phase.AgentCancelled?
          && (p.agent.phase.AgentFailed? ==> SomeFailed(p.up)))
    && (slot.phase.Cancelling? ==>
          && PrepareFirst(p)
          && (Unaware(p.agent.phase) ==> SomeCancel(p.down))
          && (p.agent.phase.AgentCancelled? ==> SomeCancelled(p.up))
          && (p.agent.phase.AgentFailed? ==> SomeFailed(p.up)))
  }

  ghost predicate AllClosing(s: System) {
    forall a :: a in s.peers && a in s.job.agents ==> Closing(s.job.agents[a], s.peers[a])
  }

  // ----- one link, one action

  lemma {:induction false} SomeSnoc(fs: seq<WireFrame>, f: WireFrame)
    ensures SomeFailed(fs + [f]) <==> SomeFailed(fs) || f.message.Failed?
    ensures SomeCancelled(fs + [f]) <==> SomeCancelled(fs) || f.message.Cancelled?
    ensures SomeCancel(fs + [f]) <==> SomeCancel(fs) || f.message.Cancel?
  {
    assert forall g :: g in fs + [f] <==> g in fs || g == f;
    assert f in fs + [f];
  }

  lemma {:induction false} SomeHead(fs: seq<WireFrame>)
    requires fs != []
    ensures SomeFailed(fs) <==> SomeFailed(fs[1..]) || fs[0].message.Failed?
    ensures SomeCancelled(fs) <==> SomeCancelled(fs[1..]) || fs[0].message.Cancelled?
    ensures SomeCancel(fs) <==> SomeCancel(fs[1..]) || fs[0].message.Cancel?
  {
    assert forall g :: g in fs <==> g in fs[1..] || g == fs[0];
  }

  lemma {:induction false} TakeKeepsClosing(jobId: string, a: string, slot: Slot, p: Peer)
    requires Identity(jobId, a, p.agent) && Frames(jobId, a, slot, p) && Closing(slot, p) && p.down != []
    requires slot.prepare.shard.agentName == a
    ensures Closing(slot, PeerActs(p, AgentTakes(a)))
  {
    hide SomeFailed, SomeCancelled, SomeCancel;
    SomeHead(p.down);
    assert p.down[0] in p.down;
    assert ControllerFrame(jobId, a, slot, p.down[0]);
  }

  lemma {:induction false} SpeechKeepsClosing(jobId: string, a: string, slot: Slot, p: Peer, act: Action)
    requires Identity(jobId, a, p.agent) && Closing(slot, p) && act.Speaks()
    ensures Closing(slot, PeerActs(p, act))
  {
    hide SomeFailed, SomeCancelled, SomeCancel;
    var said := Utterance(p.agent, act);
    if said.reply.Ok? {
      SomeSnoc(p.up, said.reply.value);
    }
  }

  lemma {:induction false} PeerKeepsClosing(jobId: string, sig: Option<Signature>, a: string, slot: Slot, p: Peer,
        act: Action)
    requires Link(jobId, sig, a, slot, p) && Closing(slot, p) && slot.prepare.shard.agentName == a
    requires !act.Cohort() && !act.ControllerTakes?
    ensures Closing(slot, PeerActs(p, act))
  {
    hide Closing, Frames, Once, Grounded, Identity, Utterance;
    if act.AgentTakes? {
      if p.down != [] {
        TakeKeepsClosing(jobId, a, slot, p);
      }
    } else {
      SpeechKeepsClosing(jobId, a, slot, p, act);
    }
  }

  /** The head of an upward queue is a frame of this job. */
  lemma {:induction false} HeadOf(jobId: string, sig: Option<Signature>, a: string, slot: Slot, p: Peer)
    requires Link(jobId, sig, a, slot, p) && p.up != []
    ensures p.up[0].protocol == WIRE_PROTOCOL && (!p.up[0].message.Hello? ==> p.up[0].message.JobId() == Some(jobId))
  {
    assert p.up[0] == p.sent[|p.sent| - |p.up|];
    assert p.up[0] in p.sent;
    assert AgentFrame(jobId, a, p.agent.hello, p.up[0]);
  }

  /** What one frame of the job does to the phase, as far as the end is concerned. */
  predicate PhaseMoves(before: Phase, m: WireMessage, step: SlotStep) {
    var answer := step.reply.Ok? && step.reply.value.Some?;
    && (before.Terminal() ==> step.slot.phase == before)
    && (before.AwaitingHello? ==>
          if answer then step.slot.phase.Preparing? && step.reply.value.value.message.Prepare?
          else step.slot.phase.AwaitingHello? || step.slot.phase.Terminal())
    && (!before.AwaitingHello? ==> !answer)
    && (Live(before) ==>
          if m.Failed? then step.slot.phase.Terminal() else Live(step.slot.phase) || step.slot.phase.Terminal())
    && (before.Cancelling? ==>
          if m.Failed? || m.Cancelled? then step.slot.phase.Terminal() else step.slot.phase.Cancelling?)
  }

  lemma {:induction false} MessageMoves(jobId: string, sig: Option<Signature>, a: string, slot: Slot, m: WireMessage)
    requires !m.Hello? ==> m.JobId() == Some(jobId)
    ensures PhaseMoves(slot.phase, m, OnMessage(jobId, sig, a, slot, m))
  {
    hide FullyReady, EvidenceNames;
  }

  lemma {:induction false} AnswerKeepsClosing(slot: Slot, p: Peer, step: SlotStep)
    requires Closing(slot, p) && p.up != [] && PhaseMoves(slot.phase, p.up[0].message, step)
    ensures Closing(step.slot, Answered(p, step.reply))
  {
    hide SomeFailed, SomeCancelled, SomeCancel;
    SomeHead(p.up);
    if step.reply.Ok? && step.reply.value.Some? {
      SomeSnoc(p.down, step.reply.value.value);
      NothingSent();
    } else {
      assert p.down + [] == p.down;
    }
  }

  lemma {:induction false} NothingSent()
    ensures !SomeFailed([]) && !SomeCancelled([]) && !SomeCancel([])
  {
  }

  lemma {:induction false} DeliveryKeepsClosing(jobId: string, sig: Option<Signature>, a: string, slot: Slot, p: Peer)
    requires Link(jobId, sig, a, slot, p) && Closing(slot, p) && p.up != []
    ensures var step := OnMessage(jobId, sig, a, slot, p.up[0].message);
      Closing(step.slot, Answered(p, step.reply))
  {
    hide *;
    HeadOf(jobId, sig, a, slot, p);
    MessageMoves(jobId, sig, a, slot, p.up[0].message);
    AnswerKeepsClosing(slot, p, OnMessage(jobId, sig, a, slot, p.up[0].message));
  }

  lemma {:induction false} PushKeepsClosing(slot: Slot, p: Peer, f: WireFrame)
    requires Closing(slot, p)
    ensures f.message.Start? && slot.phase.IsReady? ==> Closing(slot.(phase := Running), p.(down := p.down + [f]))
    ensures f.message.Cancel? && (Live(slot.phase) || slot.phase.Cancelling?) ==>
      Closing(slot.(phase := Cancelling), p.(down := p.down + [f]))
    ensures slot.phase.AwaitingHello? ==> Closing(slot.(phase := IsCancelled), p)
  {
    hide SomeFailed, SomeCancelled, SomeCancel;
    SomeSnoc(p.down, f);
    assert p.down != [] ==> (p.down + [f])[0] == p.down[0];
  }

  // ----- the whole system

  lemma {:induction false} InitClosing(prepares: seq<PrepareFrame>, hellos: map<string, HelloFrame>)
    requires NewJob(prepares).Ok? && NewJob(prepares).value.agents.Keys <= hellos.Keys
    ensures AllClosing(Init(NewJob(prepares).value, hellos))
  {
    hide NewJob;
    C.NewJobInvariant(prepares);
  }

  lemma {:induction false} StepKeepsClosing(s: System, act: Action)
    requires Safe(s) && AllClosing(s)
    ensures AllClosing(Do(s, act))
  {
    hide Link, StartSeen, CohortReported, C.SlotInvariant, Closing, PeerActs, OnMessage, Answered;
    match act
    case ControllerStarts(ms) =>
      if AllReady(s.job) {
        forall a | a in s.job.agents
          ensures Closing(s.job.agents[a].(phase := Running),
                          s.peers[a].(down := s.peers[a].down + [StartMessage(s.job, ms)]))
        {
          PushKeepsClosing(s.job.agents[a], s.peers[a], StartMessage(s.job, ms));
        }
      }
    case ControllerCancels(reason) =>
      CancelKeepsClosing(s, reason);
    case ControllerTakes(a) =>
      if a in s.peers && s.peers[a].up != [] {
        HeadOf(s.job.jobId, s.job.readySignature, a, s.job.agents[a], s.peers[a]);
        DeliveryKeepsClosing(s.job.jobId, s.job.readySignature, a, s.job.agents[a], s.peers[a]);
        C.DeliveryKeepsOthers(s.job, a, s.peers[a].up[0]);
      }
    case _ =>
      if act.a in s.peers {
        assert C.SlotInvariant(s.job, act.a, s.job.agents[act.a]);
        AssignedTo(s.job, act.a);
        PeerKeepsClosing(s.job.jobId, s.job.readySignature, act.a, s.job.agents[act.a], s.peers[act.a], act);
      }
  }

  lemma {:induction false} AssignedTo(j: Job, a: string)
    requires a in j.agents && C.SlotInvariant(j, a, j.agents[a])
    ensures j.agents[a].prepare.shard.agentName == a
  {
  }

  lemma {:induction false} CancelKeepsClosing(s: System, reason: string)
    requires Safe(s) && AllClosing(s)
    ensures AllClosing(Do(s, ControllerCancels(reason)))
  {
    hide Link, StartSeen, CohortReported, C.SlotInvariant, Safe;
    var t := Do(s, ControllerCancels(reason));
    forall a | a in t.peers && a in t.job.agents ensures Closing(t.job.agents[a], t.peers[a]) {
      hide SomeFailed, SomeCancelled, SomeCancel;
      PushKeepsClosing(s.job.agents[a], s.peers[a], CancelMessage(s.job, reason));
    }
  }

  lemma {:induction false} RunKeepsClosing(s: System, acts: seq<Action>)
    requires Safe(s) && AllClosing(s)
    ensures AllClosing(Run(s, acts))
  {
    hide Safe, AllClosing, Do;
    if acts != [] {
      RunKeepsClosing(s, acts[..|acts| - 1]);
      RunKeepsSafe(s, acts[..|acts| - 1]);
      StepKeepsClosing(Run(s, acts[..|acts| - 1]), acts[|acts| - 1]);
    }
  }

  // ----- bringing one link to its end

  lemma {:induction false} RunConcat(s: System, x: seq<Action>, y: seq<Action>)
    ensures Run(s, x + y) == Run(Run(s, x), y)
  {
    hide Do;
    if y == [] {
      assert x + y == x;
    } else {
      assert (x + y)[..|x + y| - 1] == x + y[..|y| - 1];
      RunConcat(s, x, y[..|y| - 1]);
    }
  }

  lemma {:induction false} RunOne(s: System, act: Action)
    ensures Run(s, [act]) == Do(s, act)
  {
    assert [act][..0] == [];
  }

  /** The agent finished before it heard of the cancellation: it will refuse the cancel frame, and the
      controller refuses, or has refused, its finished frame. */
  predicate Deaf(slot: Slot, p: Peer) {
    slot.phase.Cancelling? && p.agent.phase.AgentFinished?
  }

  /** Frames to take and words to say before the link of a cancelled agent has come to its end. */
  function Left(slot: Slot, p: Peer): nat {
    if slot.phase.Terminal() then 0
    else |p.up| + |p.down| + if p.agent.phase.AgentCancelled? || p.agent.phase.AgentFailed? then 1 else 3
  }

  /** The next action on the link of a cancelled agent. */
  function NextOn(a: string, p: Peer): Action {
    match p.agent.phase
    case AgentCancelled => ControllerTakes(a)
    case AgentFailed => ControllerTakes(a)
    case AgentCancelling => AgentAcknowledges(a, "")
    case AgentFinished => AgentFails(a, "", "", false)
    case _ => AgentTakes(a)
  }

  lemma {:induction false} PeerCloses(jobId: string, a: string, slot: Slot, p: Peer)
    requires Identity(jobId, a, p.agent) && Frames(jobId, a, slot, p) && Closing(slot, p)
    requires slot.prepare.shard.agentName == a && slot.phase.Cancelling? && !NextOn(a, p).ControllerTakes?
    ensures var q := PeerActs(p, NextOn(a, p));
      Left(slot, q) < Left(slot, p) && (q.agent.phase.AgentFinished? ==> p.agent.phase.AgentFinished?)
  {
    hide SomeFailed, SomeCancelled;
    if Unaware(p.agent.phase) {
      assert p.down != [] && p.down[0] in p.down;
      assert ControllerFrame(jobId, a, slot, p.down[0]);
    }
  }

  lemma {:induction false} ControllerCloses(jobId: string, sig: Option<Signature>, a: string, slot: Slot, p: Peer)
    requires Link(jobId, sig, a, slot, p) && Closing(slot, p) && slot.phase.Cancelling? && NextOn(a, p).ControllerTakes?
    ensures p.up != []
    ensures var step := OnMessage(jobId, sig, a, slot, p.up[0].message);
      && (step.slot.phase.Cancelling? || step.slot.phase.Terminal())
      && Left(step.slot, Answered(p, step.reply)) < Left(slot, p)
  {
    assert p.up != [];
    HeadOf(jobId, sig, a, slot, p);
    MessageMoves(jobId, sig, a, slot, p.up[0].message);
    hide OnMessage, Link, SomeFailed, SomeCancelled, SomeCancel;
  }

  /** Only the link of agent `a` has changed. */
  ghost predicate OthersStay(s: System, t: System, a: string) {
    && t.peers.Keys == s.peers.Keys && t.job.agents.Keys == s.job.agents.Keys
    && forall b :: b != a && b in s.peers && b in s.job.agents ==>
         b in t.peers && b in t.job.agents && t.peers[b] == s.peers[b] && t.job.agents[b] == s.job.agents[b]
  }

  lemma {:induction false} OnlyOnStays(s: System, act: Action)
    requires Safe(s) && !act.Cohort() && act.a in s.peers
    ensures OthersStay(s, Do(s, act), act.a)
  {
    hide Link, StartSeen, CohortReported, C.Invariant, PeerActs, OnMessage, Answered;
    if act.ControllerTakes? {
      if s.peers[act.a].up != [] {
        C.DeliveryKeepsOthers(s.job, act.a, s.peers[act.a].up[0]);
        assert Do(s, act).job.agents.Keys == s.job.agents.Keys;
      }
    }
    assert Do(s, act).peers.Keys == s.peers.Keys;
  }

  lemma {:induction false} DoTakes(s: System, a: string)
    requires a in s.peers && a in s.job.agents && s.peers[a].up != [] && s.peers[a].up[0].protocol == WIRE_PROTOCOL
    ensures var t := Do(s, ControllerTakes(a));
      var step := OnMessage(s.job.jobId, s.job.readySignature, a, s.job.agents[a], s.peers[a].up[0].message);
      && a in t.peers && t.peers[a] == Answered(s.peers[a], step.reply)
      && a in t.job.agents && t.job.agents[a] == step.slot
  {
    hide OnMessage, Answered;
  }

  lemma {:induction false} DoActs(s: System, act: Action)
    requires !act.Cohort() && !act.ControllerTakes? && act.a in s.peers
    ensures Do(s, act).job == s.job && act.a in Do(s, act).peers
    ensures Do(s, act).peers[act.a] == PeerActs(s.peers[act.a], act)
  {
    hide PeerActs;
  }

  lemma {:induction false} LinkOf(s: System, a: string)
    requires Safe(s) && AllClosing(s) && a in s.peers && a in s.job.agents
    ensures Link(s.job.jobId, s.job.readySignature, a, s.job.agents[a], s.peers[a])
    ensures Closing(s.job.agents[a], s.peers[a]) && s.job.agents[a].prepare.shard.agentName == a
    ensures Identity(s.job.jobId, a, s.peers[a].agent) && Frames(s.job.jobId, a, s.job.agents[a], s.peers[a])
  {
    hide Closing, StartSeen, Identity, Frames, Once, Grounded;
    assert C.SlotInvariant(s.job, a, s.job.agents[a]);
  }

  lemma {:induction false} NextIsOwn(a: string, p: Peer)
    ensures !NextOn(a, p).Cohort() && NextOn(a, p).a == a
    ensures NextOn(a, p).AgentFails? <==> p.agent.phase.AgentFinished?
    ensures NextOn(a, p).ControllerTakes? ==> NextOn(a, p) == ControllerTakes(a)
  {
  }

  /** One action brings the link of a cancelled agent closer to its end. */
  lemma {:induction false} LinkCloses(s: System, a: string) returns (act: Action)
    requires Safe(s) && AllClosing(s) && a in s.peers && a in s.job.agents && s.job.agents[a].phase.Cancelling?
    ensures !act.Cohort() && act.a == a && (act.AgentFails? <==> s.peers[a].agent.phase.AgentFinished?)
    ensures var t := Do(s, act);
      && a in t.peers && a in t.job.agents
      && (t.job.agents[a].phase.Cancelling? || t.job.agents[a].phase.Terminal())
      && Left(t.job.agents[a], t.peers[a]) < Left(s.job.agents[a], s.peers[a])
      && (t.peers[a].agent.phase.AgentFinished? ==> s.peers[a].agent.phase.AgentFinished?)
  {
    hide *;
    var slot, p := s.job.agents[a], s.peers[a];
    act := NextOn(a, p);
    NextIsOwn(a, p);
    LinkOf(s, a);
    if act.ControllerTakes? {
      ControllerCloses(s.job.jobId, s.job.readySignature, a, slot, p);
      HeadOf(s.job.jobId, s.job.readySignature, a, slot, p);
      DoTakes(s, a);
      AnsweredAgent(p, OnMessage(s.job.jobId, s.job.readySignature, a, slot, p.up[0].message).reply);
    } else {
      PeerCloses(s.job.jobId, a, slot, p);
      DoActs(s, act);
    }
  }

  lemma {:induction false} AnsweredAgent(p: Peer, reply: Reply)
    requires p.up != []
    ensures Answered(p, reply).agent == p.agent
  {
  }

  /** The link of a cancelled agent can be brought to its end, and unless the agent is deaf this takes no
      failure. */
  lemma {:induction false} EndLink(s: System, a: string) returns (acts: seq<Action>)
    requires Safe(s) && AllClosing(s) && a in s.peers && a in s.job.agents
    requires s.job.agents[a].phase.Cancelling? || s.job.agents[a].phase.Terminal()
    ensures forall act :: act in acts && act.AgentFails? ==> Deaf(s.job.agents[a], s.peers[a])
    ensures var t := Run(s, acts);
      Safe(t) && AllClosing(t) && OthersStay(s, t, a) && t.job.agents[a].phase.Terminal()
    decreases Left(s.job.agents[a], s.peers[a])
  {
    hide Safe, AllClosing, Do, Left;
    if s.job.agents[a].phase.Terminal() {
      acts := [];
    } else {
      var act := LinkCloses(s, a);
      StepKeepsSafe(s, act);
      StepKeepsClosing(s, act);
      OnlyOnStays(s, act);
      var rest := EndLink(Do(s, act), a);
      RunOne(s, act);
      RunConcat(s, [act], rest);
      acts := [act] + rest;
    }
  }

  // ----- bringing the whole cohort to its end

  /** Every agent has ended, as far as the controller knows, or has been asked to. */
  predicate Aborted(j: Job) {
    forall a :: a in j.agents ==> j.agents[a].phase.Cancelling? || j.agents[a].phase.Terminal()
  }

  predicate SomeDeaf(s: System) {
    exists a :: a in s.peers && a in s.job.agents && Deaf(s.job.agents[a], s.peers[a])
  }

  predicate NoFailure(acts: seq<Action>) {
    forall act :: act in acts ==> !act.AgentFails?
  }

  lemma {:induction false} TerminalStays(s: System, acts: seq<Action>, a: string)
    requires Safe(s) && a in s.job.agents && s.job.agents[a].phase.Terminal()
    ensures a in Run(s, acts).job.agents && Run(s, acts).job.agents[a].phase.Terminal()
  {
    RunKeepsSafe(s, acts);
    hide Safe, Run;
    assert a in Run(s, acts).job.agents.Keys;
    assert C.SlotKept(s.job.agents[a], Run(s, acts).job.agents[a]);
  }

  lemma {:induction false} StillAborted(s: System, t: System, a: string)
    requires OthersStay(s, t, a) && s.peers.Keys == s.job.agents.Keys && a in s.peers
    requires Aborted(s.job) && t.job.agents[a].phase.Terminal()
    ensures Aborted(t.job) && (SomeDeaf(t) ==> SomeDeaf(s))
  {
    assert forall b :: b in t.job.agents <==> b in s.job.agents.Keys;
    if b :| b in t.peers && b in t.job.agents && Deaf(t.job.agents[b], t.peers[b]) {
      assert b != a && b in s.peers && Deaf(s.job.agents[b], s.peers[b]);
    }
  }

  lemma {:induction false} SafeKeys(s: System)
    requires Safe(s)
    ensures s.peers.Keys == s.job.agents.Keys
  {
  }

  lemma {:induction false} EndAll(s: System, names: seq<string>) returns (acts: seq<Action>)
    requires Safe(s) && AllClosing(s) && Aborted(s.job) && forall n :: n in names ==> n in s.peers
    ensures NoFailure(acts) || SomeDeaf(s)
    ensures forall n :: n in names ==> n in Run(s, acts).job.agents && Run(s, acts).job.agents[n].phase.Terminal()
    decreases |names|
  {
    hide Safe, AllClosing, Do, C.SlotKept;
    if names == [] {
      acts := [];
    } else {
      var a := names[0];
      SafeKeys(s);
      assert a in s.peers.Keys;
      var first := EndLink(s, a);
      var t := Run(s, first);
      StillAborted(s, t, a);
      assert forall n :: n in names[1..] ==> n in s.peers.Keys;
      var rest := EndAll(t, names[1..]);
      RunConcat(s, first, rest);
      TerminalStays(t, rest, a);
      assert forall n :: n in names <==> n == a || n in names[1..];
      acts := first + rest;
    }
  }

  lemma {:induction false} CanEnd(s: System) returns (acts: seq<Action>)
    requires Safe(s) && AllClosing(s) && Aborted(s.job)
    ensures NoFailure(acts) || SomeDeaf(s)
    ensures AllTerminal(Run(s, acts).job)
  {
    hide AllClosing, Do, C.SlotKept, Link, StartSeen, CohortReported, C.Invariant, SomeDeaf;
    SafeKeys(s);
    assert forall n :: n in Sorted(s.peers.Keys) <==> n in s.peers;
    acts := EndAll(s, Sorted(s.peers.Keys));
    RunKeepsSafe(s, acts);
    assert forall a :: a in Run(s, acts).job.agents ==> a in s.job.agents.Keys;
  }

  lemma {:induction false} DeafPeer(slot: Slot, p: Peer, act: Action)
    requires Deaf(slot, p) && !act.Cohort() && !act.ControllerTakes? && !act.AgentFails?
    ensures Deaf(slot, PeerActs(p, act))
  {
  }

  lemma {:induction false} DeafDelivery(jobId: string, sig: Option<Signature>, a: string, slot: Slot, p: Peer)
    requires Link(jobId, sig, a, slot, p) && Closing(slot, p) && Deaf(slot, p) && p.up != []
    ensures var step := OnMessage(jobId, sig, a, slot, p.up[0].message); Deaf(step.slot, Answered(p, step.reply))
  {
    HeadOf(jobId, sig, a, slot, p);
    MessageMoves(jobId, sig, a, slot, p.up[0].message);
    hide OnMessage, Link, SomeFailed, SomeCancelled, SomeCancel;
    SomeHead(p.up);
  }

  lemma {:induction false} DeafCohort(s: System, act: Action, a: string)
    requires s.peers.Keys == s.job.agents.Keys && act.Cohort()
    requires a in s.peers && a in s.job.agents && Deaf(s.job.agents[a], s.peers[a])
    ensures a in Do(s, act).peers && a in Do(s, act).job.agents
    ensures Deaf(Do(s, act).job.agents[a], Do(s, act).peers[a])
  {
  }

  lemma {:induction false} Untouched(s: System, t: System, a: string, b: string)
    requires OthersStay(s, t, b) && a != b && a in s.peers && a in s.job.agents
    ensures a in t.peers && a in t.job.agents && t.peers[a] == s.peers[a] && t.job.agents[a] == s.job.agents[a]
  {
  }

  lemma {:induction false} NothingHappens(s: System, act: Action)
    requires !act.Cohort() && (act.a !in s.peers || (act.ControllerTakes? && s.peers[act.a].up == []))
    ensures Do(s, act) == s
  {
  }

  /** As long as it does not fail, a deaf agent stays deaf. */
  lemma {:induction false} DeafStays(s: System, act: Action, a: string)
    requires Safe(s) && AllClosing(s) && a in s.peers && a in s.job.agents && Deaf(s.job.agents[a], s.peers[a])
    requires !act.AgentFails?
    ensures a in Do(s, act).peers && a in Do(s, act).job.agents
    ensures Deaf(Do(s, act).job.agents[a], Do(s, act).peers[a])
  {
    hide Safe, AllClosing, Deaf, Do, OnMessage, Answered, PeerActs, OthersStay, Link, Closing;
    LinkOf(s, a);
    SafeKeys(s);
    if act.Cohort() {
      DeafCohort(s, act, a);
    } else if act.a !in s.peers || (act.ControllerTakes? && s.peers[act.a].up == []) {
      NothingHappens(s, act);
    } else if act.a != a {
      OnlyOnStays(s, act);
      Untouched(s, Do(s, act), a, act.a);
    } else if act.ControllerTakes? {
      HeadOf(s.job.jobId, s.job.readySignature, a, s.job.agents[a], s.peers[a]);
      DeafDelivery(s.job.jobId, s.job.readySignature, a, s.job.agents[a], s.peers[a]);
      DoTakes(s, a);
    } else {
      DeafPeer(s.job.agents[a], s.peers[a], act);
      DoActs(s, act);
    }
  }

  lemma {:induction false} DeafForever(s: System, acts: seq<Action>, a: string)
    requires Safe(s) && AllClosing(s) && a in s.peers && a in s.job.agents && Deaf(s.job.agents[a], s.peers[a])
    requires NoFailure(acts)
    ensures a in Run(s, acts).peers && a in Run(s, acts).job.agents
    ensures Deaf(Run(s, acts).job.agents[a], Run(s, acts).peers[a])
  {
    hide Safe, AllClosing, Do, Deaf;
    if acts != [] {
      var shorter, last := acts[..|acts| - 1], acts[|acts| - 1];
      assert acts == shorter + [last];
      DeafForever(s, shorter, a);
      RunKeepsSafe(s, shorter);
      RunKeepsClosing(s, shorter);
      DeafStays(Run(s, shorter), last, a);
    }
  }

  lemma {:induction false} AbortedEndsIff(s: System)
    requires Safe(s) && AllClosing(s) && Aborted(s.job)
    ensures (exists more :: NoFailure(more) && AllTerminal(Run(s, more).job)) <==> !SomeDeaf(s)
  {
    hide Safe, AllClosing, Run;
    if SomeDeaf(s) {
      var a :| a in s.peers && a in s.job.agents && Deaf(s.job.agents[a], s.peers[a]);
      forall more | NoFailure(more) ensures !AllTerminal(Run(s, more).job) {
        DeafForever(s, more, a);
      }
    } else {
      var more := CanEnd(s);
    }
  }

  lemma {:induction false} CancelAborts(s: System, reason: string)
    requires s.peers.Keys == s.job.agents.Keys
    ensures Aborted(Do(s, ControllerCancels(reason)).job)
    ensures SomeDeaf(Do(s, ControllerCancels(reason))) <==> !FinishesSeen(s)
  {
    var t := Do(s, ControllerCancels(reason));
    assert forall a :: a in s.peers.Keys <==> a in s.job.agents.Keys;
    if SomeDeaf(t) {
      var a :| a in t.peers && a in t.job.agents && Deaf(t.job.agents[a], t.peers[a]);
      assert a in s.peers && a in s.job.agents;
    }
    if !FinishesSeen(s) {
      var a :| a in s.peers && a in s.job.agents && FinishUnseen(s.job.agents[a], s.peers[a]);
      assert a in t.peers && a in t.job.agents && Deaf(t.job.agents[a], t.peers[a]);
    }
  }

  /** The agent has finished, but the controller has neither taken its finished frame nor seen it fail. */
  predicate FinishUnseen(slot: Slot, p: Peer) {
    p.agent.phase.AgentFinished? && !slot.phase.Terminal() && !slot.phase.AwaitingHello?
  }

  predicate FinishesSeen(s: System) {
    forall a :: a in s.peers && a in s.job.agents ==> !FinishUnseen(s.job.agents[a], s.peers[a])
  }

  lemma {:induction false} Reachable(prepares: seq<PrepareFrame>, hellos: map<string, HelloFrame>, acts: seq<Action>)
    requires NewJob(prepares).Ok? && NewJob(prepares).value.agents.Keys <= hellos.Keys
    ensures var s := Run(Init(NewJob(prepares).value, hellos), acts); Safe(s) && AllClosing(s)
  {
    hide Safe, AllClosing, Run, Init, NewJob;
    var s0 := Init(NewJob(prepares).value, hellos);
    InitSafe(prepares, hellos);
    InitClosing(prepares, hellos);
    RunKeepsSafe(s0, acts);
    RunKeepsClosing(s0, acts);
  }

  // ----- main results

  /** In every reachable state that has been cancelled, failures or not: the run can be continued without
      any agent failing until the cohort is terminal, if and only if no agent that still has to acknowledge
      has already finished. */
  lemma {:induction false} CancelledEndsIff(prepares: seq<PrepareFrame>, hellos: map<string, HelloFrame>,
        acts: seq<Action>)
    requires NewJob(prepares).Ok? && NewJob(prepares).value.agents.Keys <= hellos.Keys
    requires Aborted(Run(Init(NewJob(prepares).value, hellos), acts).job)
    ensures var s := Run(Init(NewJob(prepares).value, hellos), acts);
      (exists more :: NoFailure(more) && AllTerminal(Run(s, more).job)) <==> !SomeDeaf(s)
  {
    var s := Run(Init(NewJob(prepares).value, hellos), acts);
    hide *;
    Reachable(prepares, hellos, acts);
    AbortedEndsIff(s);
  }

  /** Seen before the call: cancelling leaves a run that can end without a failure if and only if the
      controller has seen the end of every agent that has finished. */
  lemma {:induction false} CancelEndsIff(prepares: seq<PrepareFrame>, hellos: map<string, HelloFrame>,
        acts: seq<Action>, reason: string)
    requires NewJob(prepares).Ok? && NewJob(prepares).value.agents.Keys <= hellos.Keys
    ensures var s := Run(Init(NewJob(prepares).value, hellos), acts);
      (exists more :: NoFailure(more) && AllTerminal(Run(Do(s, ControllerCancels(reason)), more).job))
        <==> FinishesSeen(s)
  {
    var s := Run(Init(NewJob(prepares).value, hellos), acts);
    hide *;
    Reachable(prepares, hellos, acts);
    StepKeepsSafe(s, ControllerCancels(reason));
    StepKeepsClosing(s, ControllerCancels(reason));
    SafeKeys(s);
    CancelAborts(s, reason);
    AbortedEndsIff(Do(s, ControllerCancels(reason)));
  }

  lemma {:induction false} EndsFrom(s: System) returns (more: seq<Action>)
    requires Safe(s) && AllClosing(s)
    ensures AllTerminal(Run(s, more).job)
  {
    hide *;
    var cancel := ControllerCancels("");
    StepKeepsSafe(s, cancel);
    StepKeepsClosing(s, cancel);
    SafeKeys(s);
    CancelAborts(s, "");
    var rest := CanEnd(Do(s, cancel));
    RunOne(s, cancel);
    RunConcat(s, [cancel], rest);
    more := [cancel] + rest;
  }

  /** With failures allowed every reachable state can be continued to a terminal cohort: cancel it, and let
      the agents that cannot acknowledge fail. */
  lemma {:induction false} AlwaysEnds(prepares: seq<PrepareFrame>, hellos: map<string, HelloFrame>, acts: seq<Action>)
    requires NewJob(prepares).Ok? && NewJob(prepares).value.agents.Keys <= hellos.Keys
    ensures exists more :: AllTerminal(Run(Run(Init(NewJob(prepares).value, hellos), acts), more).job)
  {
    var s := Run(Init(NewJob(prepares).value, hellos), acts);
    hide *;
    Reachable(prepares, hellos, acts);
    var more := EndsFrom(s);
  }

  // ----- a cancellation that comes too late

  /** A cohort of one agent. */
  function One(jobId: string, sig: Option<Signature>, a: string, slot: Slot, p: Peer): System {
    System(Job(jobId, map[a := slot], sig), map[a := p])
  }

  lemma {:induction false} OneActs(jobId: string, sig: Option<Signature>, a: string, slot: Slot, p: Peer, act: Action)
    requires !act.Cohort() && !act.ControllerTakes? && act.a == a
    ensures Do(One(jobId, sig, a, slot, p), act) == One(jobId, sig, a, slot, PeerActs(p, act))
  {
    hide PeerActs;
    assert map[a := p][a := PeerActs(p, act)] == map[a := PeerActs(p, act)];
  }

  lemma {:induction false} OneTakes(jobId: string, sig: Option<Signature>, a: string, slot: Slot, p: Peer)
    requires p.up != [] && p.up[0].protocol == WIRE_PROTOCOL
    ensures var step := OnMessage(jobId, sig, a, slot, p.up[0].message);
      Do(One(jobId, sig, a, slot, p), ControllerTakes(a))
        == One(jobId, step.signature, a, step.slot, Answered(p, step.reply))
  {
    hide OnMessage, Answered;
    var step := OnMessage(jobId, sig, a, slot, p.up[0].message);
    var q := Answered(p, step.reply);
    assert map[a := p][a := q] == map[a := q] && map[a := slot][a := step.slot] == map[a := step.slot];
  }

  lemma {:induction false} OneStarts(jobId: string, sig: Option<Signature>, a: string, slot: Slot, p: Peer, ms: u64)
    requires slot.phase.IsReady?
    ensures Do(One(jobId, sig, a, slot, p), ControllerStarts(ms))
      == One(jobId, sig, a, slot.(phase := Running), p.(down := p.down + [Frame(Start(StartFrame(jobId, ms)))]))
  {
    var s := One(jobId, sig, a, slot, p);
    assert AllReady(s.job);
  }

  /** The greeting is taken and answered, and the answer is taken. */
  lemma {:induction false} OnePrepares(p: PrepareFrame, hello: HelloFrame)
    requires HelloProblem(p.shard.agentName, hello, p).None?
    ensures var a := p.shard.agentName;
      var s0 := One(p.jobId, None, a, FreshSlot(p), FreshPeer(hello));
      var greeting := Frame(Hello(hello));
      Do(Do(Do(s0, Greet(a)), ControllerTakes(a)), AgentTakes(a))
        == One(p.jobId, None, a, FreshSlot(p).(phase := Preparing),
               Peer(AgentState(hello, AgentPreparing, Some(p.jobId), Some(a)), true, [], [], [greeting]))
  {
    var a, slot := p.shard.agentName, FreshSlot(p);
    var greeting := Frame(Hello(hello));
    var p1 := PeerActs(FreshPeer(hello), Greet(a));
    assert p1 == Peer(NewAgent(hello), true, [], [greeting], [greeting]);
    OneActs(p.jobId, None, a, slot, FreshPeer(hello), Greet(a));
    OneTakes(p.jobId, None, a, slot, p1);
    var step := OnMessage(p.jobId, None, a, slot, greeting.message);
    var p2 := Answered(p1, step.reply);
    assert p2 == Peer(NewAgent(hello), true, [Frame(Prepare(p))], [], [greeting]);
    OneActs(p.jobId, None, a, step.slot, p2, AgentTakes(a));
    assert p2.down[1..] == [];
    assert PeerActs(p2, AgentTakes(a))
      == Peer(AgentState(hello, AgentPreparing, Some(p.jobId), Some(a)), true, [], [], [greeting]);
  }

  lemma {:induction false} ReadyActs(p: Peer, a: string, ready: ReadyFrame)
    requires p.agent.phase.AgentPreparing? && p.agent.jobId == Some(ready.jobId) && p.agent.boundAgentName == Some(a)
    requires p.up == [] && ready.agentName == a
    ensures PeerActs(p, AgentReadies(a, ready)) == p.(agent := p.agent.(phase := AgentReady),
        up := [Frame(Ready(ready))], sent := p.sent + [Frame(Ready(ready))])
  {
  }

  lemma {:induction false} StartTaken(p: Peer, a: string, start: StartFrame)
    requires p.agent.phase.AgentReady? && p.agent.jobId == Some(start.jobId) && p.down == [Frame(Start(start))]
    ensures PeerActs(p, AgentTakes(a)) == p.(agent := p.agent.(phase := AgentRunning), down := [])
  {
    assert p.down[1..] == [];
  }

  lemma {:induction false} ReadyTaken(jobId: string, a: string, slot: Slot, ready: ReadyFrame)
    requires slot.phase.Preparing? && ready.jobId == jobId && ready.agentName == a && FullyReady(ready, slot.prepare.shard)
    ensures OnMessage(jobId, None, a, slot, Ready(ready))
      == SlotStep(slot.(phase := IsReady), Some(SignatureOf(ready)), Ok(None))
  {
  }

  /** The readiness report is sent and taken, and the start frame is sent and taken. */
  lemma {:induction false} OneRuns(p: PrepareFrame, hello: HelloFrame, ready: ReadyFrame, sent: seq<WireFrame>)
    requires ready.jobId == p.jobId && ready.agentName == p.shard.agentName && FullyReady(ready, p.shard)
    ensures var a := p.shard.agentName;
      var peer := Peer(AgentState(hello, AgentPreparing, Some(p.jobId), Some(a)), true, [], [], sent);
      var s := One(p.jobId, None, a, FreshSlot(p).(phase := Preparing), peer);
      Do(Do(Do(Do(s, AgentReadies(a, ready)), ControllerTakes(a)), ControllerStarts(0)), AgentTakes(a))
        == One(p.jobId, Some(SignatureOf(ready)), a, FreshSlot(p).(phase := Running),
               Peer(AgentState(hello, AgentRunning, Some(p.jobId), Some(a)), true, [], [], sent + [Frame(Ready(ready))]))
  {
    hide FullyReady, PeerActs, OnMessage, Do, One;
    var a, slot, sig := p.shard.agentName, FreshSlot(p).(phase := Preparing), Some(SignatureOf(ready));
    var peer := Peer(AgentState(hello, AgentPreparing, Some(p.jobId), Some(a)), true, [], [], sent);
    OneActs(p.jobId, None, a, slot, peer, AgentReadies(a, ready));
    ReadyActs(peer, a, ready);
    var p1 := PeerActs(peer, AgentReadies(a, ready));
    OneTakes(p.jobId, None, a, slot, p1);
    ReadyTaken(p.jobId, a, slot, ready);
    var p2 := p1.(up := []);
    assert Answered(p1, Ok(None)) == p2;
    var start := StartFrame(p.jobId, 0);
    OneStarts(p.jobId, sig, a, slot.(phase := IsReady), p2, 0);
    var p3 := p2.(down := [Frame(Start(start))]);
    assert p2.down + [Frame(Start(start))] == p3.down;
    OneActs(p.jobId, sig, a, slot.(phase := Running), p3, AgentTakes(a));
    StartTaken(p3, a, start);
  }

  /** Greeting, preparation, readiness and start, and then the agent finishes. */
  function LateRun(a: string, ready: ReadyFrame, e: AgentEvidence): seq<Action> {
    [Greet(a), ControllerTakes(a), AgentTakes(a), AgentReadies(a, ready), ControllerTakes(a), ControllerStarts(0),
     AgentTakes(a), AgentFinishes(a, e)]
  }

  lemma {:induction false} RunOfEight(s: System, acts: seq<Action>)
    requires |acts| == 8
    ensures Run(s, acts)
      == Do(Do(Do(Do(Do(Do(Do(Do(s, acts[0]), acts[1]), acts[2]), acts[3]), acts[4]), acts[5]), acts[6]), acts[7])
  {
    hide Do;
    RunTo(s, acts, 0);
    RunTo(s, acts, 1);
    RunTo(s, acts, 2);
    RunTo(s, acts, 3);
    RunTo(s, acts, 4);
    RunTo(s, acts, 5);
    RunTo(s, acts, 6);
    RunTo(s, acts, 7);
    assert acts[..0] == [] && acts[..8] == acts;
    assert Run(s, []) == s;
  }

  lemma {:induction false} RunTo(s: System, acts: seq<Action>, n: nat)
    requires n < |acts|
    ensures Run(s, acts[..n + 1]) == Do(Run(s, acts[..n]), acts[n])
  {
    hide Do;
    assert acts[..n + 1][..n] == acts[..n];
  }

  lemma {:induction false} OneInit(p: PrepareFrame, hello: HelloFrame)
    ensures var a := p.shard.agentName;
      && NewJob([p]).Ok? && NewJob([p]).value.agents.Keys <= (map[a := hello]).Keys
      && Init(NewJob([p]).value, map[a := hello]) == One(p.jobId, None, a, FreshSlot(p), FreshPeer(hello))
  {
    var a := p.shard.agentName;
    assert [p][..0] == [];
    assert Enrol(p.jobId, []) == Ok(map[]);
    assert Enrol(p.jobId, [p]) == Ok(map[a := FreshSlot(p)]);
  }

  lemma {:induction false} LateFinish(p: PrepareFrame, hello: HelloFrame, ready: ReadyFrame, e: AgentEvidence)
    requires HelloProblem(p.shard.agentName, hello, p).None?
    requires ready.jobId == p.jobId && ready.agentName == p.shard.agentName && FullyReady(ready, p.shard)
    requires EvidenceNames(p.shard.agentName, e)
    ensures var a := p.shard.agentName;
      var s := Run(One(p.jobId, None, a, FreshSlot(p), FreshPeer(hello)), LateRun(a, ready, e));
      && s.job.agents == map[a := FreshSlot(p).(phase := Running)]
      && a in s.peers && s.peers[a].agent.phase.AgentFinished?
      && s.peers[a].up == [Frame(Finished(FinishedFrame(p.jobId, e)))]
  {
    var a := p.shard.agentName;
    hide Do, FullyReady, HelloProblem, Run, PeerActs;
    RunOfEight(One(p.jobId, None, a, FreshSlot(p), FreshPeer(hello)), LateRun(a, ready, e));
    OnePrepares(p, hello);
    var sent := [Frame(Hello(hello))];
    OneRuns(p, hello, ready, sent);
    var peer := Peer(AgentState(hello, AgentRunning, Some(p.jobId), Some(a)), true, [], [], sent + [Frame(Ready(ready))]);
    FinishActs(peer, a, e);
    OneActs(p.jobId, Some(SignatureOf(ready)), a, FreshSlot(p).(phase := Running), peer, AgentFinishes(a, e));
  }

  lemma {:induction false} FinishActs(p: Peer, a: string, e: AgentEvidence)
    requires p.agent.phase.AgentRunning? && p.agent.jobId.Some? && p.agent.boundAgentName == Some(a) && EvidenceNames(a, e)
    requires p.up == []
    ensures var q := PeerActs(p, AgentFinishes(a, e));
      q.agent.phase.AgentFinished? && q.up == [Frame(Finished(FinishedFrame(p.agent.jobId.value, e)))]
  {
  }

  /** It does happen: a capable agent reports ready, is started and finishes; a cancellation while its
      finished frame is in flight leaves a run that no continuation without a failure can end. */
  lemma {:induction false} CancelTooLate(p: PrepareFrame, hello: HelloFrame, ready: ReadyFrame, e: AgentEvidence,
        reason: string)
    requires HelloProblem(p.shard.agentName, hello, p).None?
    requires ready.jobId == p.jobId && ready.agentName == p.shard.agentName && FullyReady(ready, p.shard)
    requires EvidenceNames(p.shard.agentName, e)
    ensures NewJob([p]).Ok? && NewJob([p]).value.agents.Keys <= (map[p.shard.agentName := hello]).Keys
    ensures var a := p.shard.agentName;
      var s := Run(Init(NewJob([p]).value, map[a := hello]), LateRun(a, ready, e));
      !exists more :: NoFailure(more) && AllTerminal(Run(Do(s, ControllerCancels(reason)), more).job)
  {
    var a := p.shard.agentName;
    OneInit(p, hello);
    LateFinish(p, hello, ready, e);
    hide Run, Do, Init, NewJob, HelloProblem, FullyReady, LateRun;
    var s := Run(Init(NewJob([p]).value, map[a := hello]), LateRun(a, ready, e));
    assert FinishUnseen(s.job.agents[a], s.peers[a]);
    CancelEndsIff([p], map[a := hello], LateRun(a, ready, e), reason);
  }

  /** Why: on the link of a deaf agent the controller refuses the finished frame, so that its evidence is
      lost, and the agent refuses the cancel frame; neither changes state. */
  lemma {:induction false} BothRefuse(jobId: string, sig: Option<Signature>, a: string, slot: Slot, p: Peer,
        finished: FinishedFrame, cancel: CancelFrame)
    requires Deaf(slot, p)
    ensures OnMessage(jobId, sig, a, slot, Finished(finished))
      == SlotStep(slot, sig, Err(ControllerError.UnexpectedFrame(a, slot.phase, Finished(finished))))
    ensures AcceptFrame(p.agent, Frame(Cancel(cancel)))
      == Agent.Step(p.agent, Err(AgentError.UnexpectedFrame(p.agent.phase, Cancel(cancel))))
  {
  }
}
