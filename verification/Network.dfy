/** One controller, its agents and one first-in-first-out queue per direction and agent. */
module Network {
  import opened Basics
  import opened Ordering
  import opened Protocol
  import opened ControllerSpec
  import opened Agent
  import C = ControllerRuns

  /** One agent with its two queues; `sent` remembers every frame it ever sent. */
  datatype Peer = Peer(agent: AgentState, greeted: bool, down: seq<WireFrame>, up: seq<WireFrame>, sent: seq<WireFrame>)

  datatype System = System(job: Job, peers: map<string, Peer>)

  datatype Action =
    | Greet(a: string)
    | AgentTakes(a: string)
    | AgentReadies(a: string, ready: ReadyFrame)
    | AgentProgresses(a: string, sequence: u64, evidence: AgentEvidence)
    | AgentBeats(a: string, sequence: u64)
    | AgentFinishes(a: string, evidence: AgentEvidence)
    | AgentFails(a: string, code: string, message: string, retryable: bool)
    | AgentAcknowledges(a: string, reason: string)
    | ControllerTakes(a: string)
    | ControllerStarts(startAfterMs: u64)
    | ControllerCancels(reason: string)
  {
    predicate Cohort() {
      ControllerStarts? || ControllerCancels?
    }

    predicate Speaks() {
      !Cohort() && !ControllerTakes? && !AgentTakes?
    }
  }

  function FreshPeer(hello: HelloFrame): Peer {
    Peer(NewAgent(hello), false, [], [], [])
  }

  function Init(job: Job, hellos: map<string, HelloFrame>): System
    requires job.agents.Keys <= hellos.Keys
  {
    System(job, map a | a in job.agents :: FreshPeer(hellos[a]))
  }

  // ----- one peer acting on its own

  /** The agent is in a new state and, unless the call failed, has put a frame on the wire. */
  function Speak(p: Peer, agent: AgentState, reply: Result<WireFrame, AgentError>): Peer {
    if reply.Err? then p.(agent := agent)
    else p.(agent := agent, up := p.up + [reply.value], sent := p.sent + [reply.value])
  }

  /** The state machine call behind each action that makes an agent speak. */
  function Utterance(agent: AgentState, act: Action): Step<WireFrame>
    requires act.Speaks()
  {
    match act
    case Greet(_) => Step(agent, Ok(Frame(Hello(agent.hello))))
    case AgentReadies(_, ready) => MarkReady(agent, ready)
    case AgentProgresses(_, n, e) => Step(agent, SendProgress(agent, n, e))
    case AgentBeats(_, n) => Step(agent, SendHeartbeat(agent, n))
    case AgentFinishes(_, e) => Finish(agent, e)
    case AgentFails(_, code, message, retryable) => Fail(agent, code, message, retryable)
    case AgentAcknowledges(_, reason) => AcknowledgeCancel(agent, reason)
  }

  function PeerActs(p: Peer, act: Action): Peer
    requires !act.Cohort() && !act.ControllerTakes?
  {
    if act.AgentTakes? then
      if p.down == [] then p else p.(agent := AcceptFrame(p.agent, p.down[0]).agent, down := p.down[1..])
    else if act.Greet? && p.greeted then p
    else
      var said := Utterance(p.agent, act);
      Speak(p.(greeted := p.greeted || act.Greet?), said.agent, said.reply)
  }

  /** The controller takes the oldest frame of one agent and answers it on the same link. */
  function Answered(p: Peer, reply: Reply): Peer
    requires p.up != []
  {
    p.(up := p.up[1..], down := p.down + (if reply.Ok? && reply.value.Some? then [reply.value.value] else []))
  }

  function Do(s: System, act: Action): System {
    match act
    case ControllerStarts(ms) =>
      if !AllReady(s.job) then s
      else System(StartAll(s.job),
        map a | a in s.peers :: s.peers[a].(down := s.peers[a].down + [StartMessage(s.job, ms)]))
    case ControllerCancels(reason) =>
      System(CancelAll(s.job),
        map a | a in s.peers ::
          if GetsCancel(s.job, a) then s.peers[a].(down := s.peers[a].down + [CancelMessage(s.job, reason)])
          else s.peers[a])
    case ControllerTakes(a) =>
      if a !in s.peers || s.peers[a].up == [] then s
      else
        var f := s.peers[a].up[0];
        System(ControllerSpec.Accept(s.job, a, f), s.peers[a := Answered(s.peers[a], AcceptReply(s.job, a, f))])
    case _ =>
      if act.a !in s.peers then s
      else System(s.job, s.peers[act.a := PeerActs(s.peers[act.a], act)])
  }

  function Run(s: System, acts: seq<Action>): System {
    if acts == [] then s else Do(Run(s, acts[..|acts| - 1]), acts[|acts| - 1])
  }

  // ----- what is always true of one link

  /** A frame the controller can have put on the link of agent `a`. */
  predicate ControllerFrame(jobId: string, a: string, slot: Slot, f: WireFrame) {
    && f.protocol == WIRE_PROTOCOL
    && f.message.JobId() == Some(jobId)
    && (f.message.Prepare? || f.message.Start? || f.message.Cancel?)
    && (f.message.Prepare? ==> f.message.prepare == slot.prepare)
  }

  /** A frame agent `a` can have sent: its greeting, or a frame of this job under its own name. */
  predicate AgentFrame(jobId: string, a: string, hello: HelloFrame, f: WireFrame) {
    && f.protocol == WIRE_PROTOCOL
    && !f.message.Prepare? && !f.message.Start? && !f.message.Cancel?
    && (f.message.Hello? ==> f.message.hello == hello)
    && (!f.message.Hello? ==> f.message.JobId() == Some(jobId))
    && (f.message.Ready? ==> f.message.ready.agentName == a)
    && (f.message.Progress? ==> EvidenceNames(a, f.message.progress.evidence))
    && (f.message.Finished? ==> EvidenceNames(a, f.message.finished.evidence))
  }

  function CountReady(fs: seq<WireFrame>): nat {
    if fs == [] then 0 else CountReady(fs[..|fs| - 1]) + if fs[|fs| - 1].message.Ready? then 1 else 0
  }

  function CountFinished(fs: seq<WireFrame>): nat {
    if fs == [] then 0 else CountFinished(fs[..|fs| - 1]) + if fs[|fs| - 1].message.Finished? then 1 else 0
  }

  predicate GoodReady(f: WireFrame, slot: Slot, sig: Signature) {
    f.message.Ready? && FullyReady(f.message.ready, slot.prepare.shard) && SignatureOf(f.message.ready) == sig
  }

  /** The agent has sent a full readiness report for its shard under this signature. */
  ghost predicate SentGoodReady(sent: seq<WireFrame>, slot: Slot, sig: Signature) {
    exists f :: f in sent && GoodReady(f, slot, sig)
  }

  /** What is still queued is the newest part of what was sent: the queue is first-in-first-out. */
  predicate Queued(p: Peer) {
    |p.up| <= |p.sent| && p.up == p.sent[|p.sent| - |p.up|..]
  }

  predicate NotYetReady(p: AgentPhase) {
    p.AwaitingPrepare? || p.AgentPreparing?
  }

  predicate NotYetFinished(p: AgentPhase) {
    p.AwaitingPrepare? || p.AgentPreparing? || p.AgentReady? || p.AgentRunning?
  }

  /** The greeting leaves the name open or gives this one. */
  predicate PinnedCorrectly(a: string, hello: HelloFrame) {
    hello.agentName.Some? ==> hello.agentName.value == a
  }

  /** A prepare frame answers a greeting that fits. */
  ghost predicate Frames(jobId: string, a: string, slot: Slot, p: Peer) {
    && (forall f :: f in p.down ==>
          ControllerFrame(jobId, a, slot, f) && (f.message.Prepare? ==> PinnedCorrectly(a, p.agent.hello)))
    && (forall f :: f in p.sent ==> AgentFrame(jobId, a, p.agent.hello, f))
    && Queued(p)
  }

  predicate Identity(jobId: string, a: string, agent: AgentState) {
    && Bound(agent)
    && (agent.jobId.Some? ==> agent.jobId.value == jobId && agent.boundAgentName == Some(a))
  }

  predicate Once(p: Peer) {
    && CountReady(p.sent) <= 1 && (NotYetReady(p.agent.phase) ==> CountReady(p.sent) == 0)
    && CountFinished(p.sent) <= 1 && (NotYetFinished(p.agent.phase) ==> CountFinished(p.sent) == 0)
  }

  /** The controller's knowledge of an agent comes from frames that agent sent. */
  ghost predicate Grounded(jobId: string, sig: Option<Signature>, slot: Slot, sent: seq<WireFrame>) {
    && (slot.phase.ReadyAccepted() ==> sig.Some? && SentGoodReady(sent, slot, sig.value))
    && (slot.finalEvidence.Some? ==> Frame(Finished(FinishedFrame(jobId, slot.finalEvidence.value))) in sent)
  }

  ghost predicate Link(jobId: string, sig: Option<Signature>, a: string, slot: Slot, p: Peer) {
    && Identity(jobId, a, p.agent)
    && Frames(jobId, a, slot, p)
    && Once(p)
    && Grounded(jobId, sig, slot, p.sent)
  }

  /** The start gate has been opened for this agent: it runs, or a start frame is on its way. */
  ghost predicate StartSeen(p: Peer) {
    p.agent.phase.AgentRunning? || exists f :: f in p.down && f.message.Start?
  }

  /** Every agent of the cohort has sent its full readiness report under the one stored signature. */
  ghost predicate CohortReported(s: System) {
    && s.job.readySignature.Some?
    && forall a :: a in s.peers && a in s.job.agents ==>
      SentGoodReady(s.peers[a].sent, s.job.agents[a], s.job.readySignature.value)
  }

  ghost predicate Safe(s: System) {
    && C.Invariant(s.job)
    && s.peers.Keys == s.job.agents.Keys
    && (forall a :: a in s.peers ==> Link(s.job.jobId, s.job.readySignature, a, s.job.agents[a], s.peers[a]))
    && (forall a :: a in s.peers && StartSeen(s.peers[a]) ==> CohortReported(s))
  }

  // ----- one link, one action

  lemma {:induction false} CountsAfter(fs: seq<WireFrame>, f: WireFrame)
    ensures CountReady(fs + [f]) == CountReady(fs) + if f.message.Ready? then 1 else 0
    ensures CountFinished(fs + [f]) == CountFinished(fs) + if f.message.Finished? then 1 else 0
  {
    assert (fs + [f])[..|fs|] == fs;
  }

  /** Everything an agent can say carries its own identity, and says ready or finished in order. */
  predicate Proper(jobId: string, a: string, before: AgentState, said: Step<WireFrame>) {
    && Identity(jobId, a, said.agent) && said.agent.hello == before.hello
    && (said.reply.Ok? ==> AgentFrame(jobId, a, before.hello, said.reply.value))
    && (said.reply.Ok? && said.reply.value.message.Ready? ==>
          NotYetReady(before.phase) && !NotYetReady(said.agent.phase))
    && (said.reply.Ok? && said.reply.value.message.Finished? ==>
          NotYetFinished(before.phase) && !NotYetFinished(said.agent.phase))
    && (NotYetReady(said.agent.phase) ==> NotYetReady(before.phase))
    && (NotYetFinished(said.agent.phase) ==> NotYetFinished(before.phase))
    && (said.agent.phase.AgentRunning? ==> before.phase.AgentRunning?)
  }

  lemma {:induction false} UtteranceIsProper(jobId: string, a: string, agent: AgentState, act: Action)
    requires Identity(jobId, a, agent) && act.Speaks()
    ensures Proper(jobId, a, agent, Utterance(agent, act))
  {
  }

  lemma {:induction false} SpeakKeepsFrames(jobId: string, a: string, slot: Slot, p: Peer, said: Step<WireFrame>)
    requires Frames(jobId, a, slot, p) && Proper(jobId, a, p.agent, said)
    ensures Frames(jobId, a, slot, Speak(p, said.agent, said.reply))
    ensures p.sent <= Speak(p, said.agent, said.reply).sent
  {
    hide Identity, AgentFrame, ControllerFrame;
    var q := Speak(p, said.agent, said.reply);
    if said.reply.Ok? {
      assert forall f :: f in q.sent ==> f in p.sent || f == said.reply.value;
    }
  }

  lemma {:induction false} SpeakKeepsOnce(jobId: string, a: string, p: Peer, said: Step<WireFrame>)
    requires Once(p) && Proper(jobId, a, p.agent, said)
    ensures Once(Speak(p, said.agent, said.reply))
  {
    hide Identity, AgentFrame, CountReady, CountFinished;
    if said.reply.Ok? {
      CountsAfter(p.sent, said.reply.value);
    }
  }

  /** Having sent more never takes a ground away. */
  lemma {:induction false} GroundedGrows(jobId: string, sig: Option<Signature>, slot: Slot, sent: seq<WireFrame>,
        more: seq<WireFrame>)
    requires Grounded(jobId, sig, slot, sent) && sent <= more
    ensures Grounded(jobId, sig, slot, more)
  {
    hide GoodReady;
    assert forall f :: f in sent ==> f in more;
  }

  lemma {:induction false} SpeakKeepsLink(jobId: string, sig: Option<Signature>, a: string, slot: Slot, p: Peer,
        said: Step<WireFrame>)
    requires Link(jobId, sig, a, slot, p) && Proper(jobId, a, p.agent, said)
    ensures Link(jobId, sig, a, slot, Speak(p, said.agent, said.reply))
    ensures p.sent <= Speak(p, said.agent, said.reply).sent
  {
    hide Frames, Once, Grounded, Identity, AgentFrame;
    SpeakKeepsFrames(jobId, a, slot, p, said);
    SpeakKeepsOnce(jobId, a, p, said);
    GroundedGrows(jobId, sig, slot, p.sent, Speak(p, said.agent, said.reply).sent);
  }

  /** Taking a controller frame keeps the agent's identity and never reopens a phase. */
  predicate TakesWell(jobId: string, a: string, before: AgentState, f: WireFrame, after: AgentState) {
    && Identity(jobId, a, after) && after.hello == before.hello
    && (NotYetReady(after.phase) ==> NotYetReady(before.phase))
    && (NotYetFinished(after.phase) ==> NotYetFinished(before.phase))
    && (after.phase.AgentRunning? ==> before.phase.AgentRunning? || f.message.Start?)
  }

  lemma {:induction false} AcceptFrameTakesWell(jobId: string, a: string, slot: Slot, agent: AgentState, f: WireFrame)
    requires Identity(jobId, a, agent) && ControllerFrame(jobId, a, slot, f) && slot.prepare.shard.agentName == a
    ensures TakesWell(jobId, a, agent, f, AcceptFrame(agent, f).agent)
  {
  }

  lemma {:induction false} TakeKeepsLink(jobId: string, sig: Option<Signature>, a: string, slot: Slot, p: Peer)
    requires Link(jobId, sig, a, slot, p) && p.down != [] && slot.prepare.shard.agentName == a
    ensures var q := p.(agent := AcceptFrame(p.agent, p.down[0]).agent, down := p.down[1..]);
      Link(jobId, sig, a, slot, q) && (StartSeen(q) ==> StartSeen(p))
  {
    assert p.down[0] in p.down;
    AcceptFrameTakesWell(jobId, a, slot, p.agent, p.down[0]);
    assert forall f :: f in p.down[1..] ==> f in p.down;
  }

  lemma {:induction false} PeerActsKeepsLink(jobId: string, sig: Option<Signature>, a: string, slot: Slot, p: Peer,
        act: Action)
    requires Link(jobId, sig, a, slot, p) && slot.prepare.shard.agentName == a
    requires !act.Cohort() && !act.ControllerTakes?
    ensures Link(jobId, sig, a, slot, PeerActs(p, act))
    ensures p.sent <= PeerActs(p, act).sent && PeerActs(p, act).agent.hello == p.agent.hello
    ensures StartSeen(PeerActs(p, act)) ==> StartSeen(p)
  {
    hide Proper, Utterance, CountReady, CountFinished, AgentFrame, ControllerFrame, SentGoodReady;
    if act.AgentTakes? {
      if p.down != [] {
        TakeKeepsLink(jobId, sig, a, slot, p);
      }
    } else if !(act.Greet? && p.greeted) {
      UtteranceIsProper(jobId, a, p.agent, act);
      SpeakKeepsLink(jobId, sig, a, slot, p.(greeted := p.greeted || act.Greet?), Utterance(p.agent, act));
    }
  }

  // ----- the controller takes a frame

  lemma {:induction false} ReadyIsGrounded(jobId: string, sig: Option<Signature>, a: string, slot: Slot,
        sent: seq<WireFrame>, f: WireFrame)
    requires Grounded(jobId, sig, slot, sent) && f in sent && f.protocol == WIRE_PROTOCOL
    requires slot.finalEvidence.Some? ==> slot.phase.IsFinished?
    ensures var step := OnMessage(jobId, sig, a, slot, f.message);
      Grounded(jobId, step.signature, step.slot, sent)
  {
    var step := OnMessage(jobId, sig, a, slot, f.message);
    C.MessageKeeps(jobId, sig, a, slot, f.message);
    if step.slot.phase.ReadyAccepted() && !slot.phase.ReadyAccepted() {
      assert GoodReady(f, step.slot, step.signature.value);
    } else if step.slot.phase.ReadyAccepted() {
      var g :| g in sent && GoodReady(g, slot, sig.value);
      assert GoodReady(g, step.slot, sig.value);
    }
    if step.slot.finalEvidence != slot.finalEvidence {
      assert f == Frame(Finished(FinishedFrame(jobId, step.slot.finalEvidence.value)));
    }
  }

  lemma {:induction false} ReplyIsPrepare(jobId: string, sig: Option<Signature>, a: string, slot: Slot, m: WireMessage)
    requires slot.prepare.jobId == jobId
    ensures var step := OnMessage(jobId, sig, a, slot, m);
      step.reply.Ok? && step.reply.value.Some? ==>
        && ControllerFrame(jobId, a, step.slot, step.reply.value.value) && step.reply.value.value.message.Prepare?
        && m.Hello? && PinnedCorrectly(a, m.hello)
  {
  }

  lemma {:induction false} ControllerTakesKeepsLink(j: Job, a: string, p: Peer)
    requires a in j.agents && C.SlotInvariant(j, a, j.agents[a])
    requires Link(j.jobId, j.readySignature, a, j.agents[a], p) && p.up != []
    ensures var k := ControllerSpec.Accept(j, a, p.up[0]);
      var q := Answered(p, AcceptReply(j, a, p.up[0]));
      && a in k.agents
      && Link(j.jobId, k.readySignature, a, k.agents[a], q)
      && q.sent == p.sent && q.agent.hello == p.agent.hello && (StartSeen(q) ==> StartSeen(p))
  {
    var f := p.up[0];
    assert f == p.sent[|p.sent| - |p.up|];
    assert f in p.sent;
    var step := AcceptStep(j, a, f.message);
    C.MessageKeeps(j.jobId, j.readySignature, a, j.agents[a], f.message);
    ReplyIsPrepare(j.jobId, j.readySignature, a, j.agents[a], f.message);
    ReadyIsGrounded(j.jobId, j.readySignature, a, j.agents[a], p.sent, f);
    AnsweredFrames(j.jobId, a, j.agents[a], step.slot, p, step.reply);
  }

  lemma {:induction false} AnsweredFrames(jobId: string, a: string, slot: Slot, slot': Slot, p: Peer, reply: Reply)
    requires Frames(jobId, a, slot, p) && p.up != [] && slot'.prepare == slot.prepare
    requires reply.Ok? && reply.value.Some? ==>
      && ControllerFrame(jobId, a, slot', reply.value.value) && reply.value.value.message.Prepare?
      && PinnedCorrectly(a, p.agent.hello)
    ensures Frames(jobId, a, slot', Answered(p, reply))
    ensures StartSeen(Answered(p, reply)) ==> StartSeen(p)
  {
    var q := Answered(p, reply);
    assert q.up == p.sent[|p.sent| - |q.up|..];
    forall f | f in q.down
      ensures ControllerFrame(jobId, a, slot', f) && (f.message.Prepare? ==> PinnedCorrectly(a, q.agent.hello))
    {
      if f in p.down {
        assert ControllerFrame(jobId, a, slot, f);
      }
    }
  }

  // ----- the whole system

  /** Logs only grow, assignments stay, and a stored signature stays. */
  ghost predicate Extends(s: System, t: System) {
    && t.peers.Keys == s.peers.Keys && t.job.agents.Keys == s.job.agents.Keys && t.job.jobId == s.job.jobId
    && (s.job.readySignature.Some? ==> t.job.readySignature == s.job.readySignature)
    && (forall a :: a in s.peers ==> s.peers[a].sent <= t.peers[a].sent && t.peers[a].agent.hello == s.peers[a].agent.hello)
    && (forall a :: a in s.job.agents ==> C.SlotKept(s.job.agents[a], t.job.agents[a]))
  }

  lemma {:induction false} ReportsStay(s: System, t: System)
    requires Extends(s, t) && CohortReported(s)
    ensures CohortReported(t)
  {
    var sig := s.job.readySignature.value;
    forall a | a in t.peers && a in t.job.agents ensures SentGoodReady(t.peers[a].sent, t.job.agents[a], sig) {
      var f :| f in s.peers[a].sent && GoodReady(f, s.job.agents[a], sig);
      assert C.SlotKept(s.job.agents[a], t.job.agents[a]);
      assert f in t.peers[a].sent;
    }
  }

  lemma {:induction false} SlotKeptItself(slot: Slot)
    ensures C.SlotKept(slot, slot)
  {
  }

  /** A first signature stored by one agent's report does not disturb the other links. */
  lemma {:induction false} OtherSignature(jobId: string, sig: Option<Signature>, sig': Option<Signature>, b: string,
        slot: Slot, p: Peer)
    requires Link(jobId, sig, b, slot, p) && (sig.Some? ==> sig' == sig)
    ensures Link(jobId, sig', b, slot, p)
  {
  }

  /** A step on one link keeps every other link. */
  lemma {:induction false} OneLinkKeepsSafe(s: System, a: string, job: Job, p: Peer)
    requires Safe(s) && a in s.peers && C.Invariant(job) && job.jobId == s.job.jobId && job.agents.Keys == s.job.agents.Keys
    requires s.job.readySignature.Some? ==> job.readySignature == s.job.readySignature
    requires forall b :: b in s.job.agents && b != a ==> job.agents[b] == s.job.agents[b]
    requires C.SlotKept(s.job.agents[a], job.agents[a])
    requires Link(job.jobId, job.readySignature, a, job.agents[a], p)
    requires s.peers[a].sent <= p.sent && p.agent.hello == s.peers[a].agent.hello && (StartSeen(p) ==> StartSeen(s.peers[a]))
    ensures Safe(System(job, s.peers[a := p])) && Extends(s, System(job, s.peers[a := p]))
  {
    hide Link, StartSeen, C.Invariant, C.SlotKept, CohortReported;
    var t := System(job, s.peers[a := p]);
    assert t.peers.Keys == s.peers.Keys;
    forall b | b in s.job.agents ensures C.SlotKept(s.job.agents[b], t.job.agents[b]) {
      SlotKeptItself(s.job.agents[b]);
    }
    forall b | b in t.peers ensures Link(job.jobId, job.readySignature, b, job.agents[b], t.peers[b]) {
      if b != a {
        OtherSignature(s.job.jobId, s.job.readySignature, job.readySignature, b, s.job.agents[b], s.peers[b]);
      }
    }
    forall b | b in t.peers && StartSeen(t.peers[b]) ensures CohortReported(t) {
      assert StartSeen(s.peers[b]);
      ReportsStay(s, t);
    }
  }

  /** Appending a start or cancel frame and moving the slot's phase keeps the link. */
  lemma {:induction false} PushKeepsLink(jobId: string, sig: Option<Signature>, a: string, slot: Slot, slot': Slot,
        p: Peer, f: WireFrame)
    requires Link(jobId, sig, a, slot, p) && slot'.prepare == slot.prepare
    requires slot'.finalEvidence == slot.finalEvidence && (slot'.phase.ReadyAccepted() ==> slot.phase.ReadyAccepted())
    requires ControllerFrame(jobId, a, slot', f) && !f.message.Prepare?
    ensures Link(jobId, sig, a, slot', p) && Link(jobId, sig, a, slot', p.(down := p.down + [f]))
  {
    if slot'.phase.ReadyAccepted() {
      var g :| g in p.sent && GoodReady(g, slot, sig.value);
      assert GoodReady(g, slot', sig.value);
    }
    forall h | h in p.down ensures ControllerFrame(jobId, a, slot', h) {
      assert ControllerFrame(jobId, a, slot, h);
    }
  }

  lemma {:induction false} SignatureStored(j: Job)
    requires C.Invariant(j) && AllReady(j)
    ensures j.readySignature.Some?
  {
    var a :| a in j.agents.Keys;
    assert C.SlotInvariant(j, a, j.agents[a]);
  }

  /** Releasing one ready agent: its link stays good and its report is on record. */
  lemma {:induction false} StartOneLink(jobId: string, sig: Option<Signature>, a: string, slot: Slot, p: Peer,
        f: WireFrame)
    requires Link(jobId, sig, a, slot, p) && slot.phase.IsReady?
    requires f.protocol == WIRE_PROTOCOL && f.message.Start? && f.message.start.jobId == jobId
    ensures Link(jobId, sig, a, slot.(phase := Running), p.(down := p.down + [f]))
    ensures sig.Some? && SentGoodReady(p.sent, slot.(phase := Running), sig.value)
  {
    PushKeepsLink(jobId, sig, a, slot, slot.(phase := Running), p, f);
  }

  lemma {:induction false} CancelOneLink(jobId: string, sig: Option<Signature>, a: string, slot: Slot, p: Peer,
        f: WireFrame)
    requires Link(jobId, sig, a, slot, p)
    requires f.protocol == WIRE_PROTOCOL && f.message.Cancel? && f.message.cancel.jobId == jobId
    ensures Link(jobId, sig, a, slot.(phase := CancelledPhase(slot.phase)), p)
    ensures Link(jobId, sig, a, slot.(phase := CancelledPhase(slot.phase)), p.(down := p.down + [f]))
    ensures StartSeen(p.(down := p.down + [f])) ==> StartSeen(p)
  {
    PushKeepsLink(jobId, sig, a, slot, slot.(phase := CancelledPhase(slot.phase)), p, f);
  }

  lemma {:induction false} StartsKeepSafe(s: System, ms: u64)
    requires Safe(s) && AllReady(s.job)
    ensures Safe(Do(s, ControllerStarts(ms))) && Extends(s, Do(s, ControllerStarts(ms)))
  {
    hide Link, StartSeen, C.Invariant, C.SlotKept, SentGoodReady;
    var t := Do(s, ControllerStarts(ms));
    C.StartInvariant(s.job);
    assert t.peers.Keys == s.peers.Keys;
    SignatureStored(s.job);
    forall a | a in t.peers
      ensures Link(t.job.jobId, t.job.readySignature, a, t.job.agents[a], t.peers[a])
      ensures SentGoodReady(t.peers[a].sent, t.job.agents[a], t.job.readySignature.value)
    {
      StartOneLink(s.job.jobId, s.job.readySignature, a, s.job.agents[a], s.peers[a], StartMessage(s.job, ms));
    }
  }

  lemma {:induction false} CancelsKeepSafe(s: System, reason: string)
    requires Safe(s)
    ensures Safe(Do(s, ControllerCancels(reason))) && Extends(s, Do(s, ControllerCancels(reason)))
  {
    hide Link, StartSeen, C.Invariant, C.SlotKept, CohortReported;
    var t := Do(s, ControllerCancels(reason));
    C.CancelInvariant(s.job);
    assert t.peers.Keys == s.peers.Keys;
    forall a | a in t.peers
      ensures Link(t.job.jobId, t.job.readySignature, a, t.job.agents[a], t.peers[a])
      ensures StartSeen(t.peers[a]) ==> StartSeen(s.peers[a])
    {
      CancelOneLink(s.job.jobId, s.job.readySignature, a, s.job.agents[a], s.peers[a], CancelMessage(s.job, reason));
    }
    assert Extends(s, t);
    forall a | a in t.peers && StartSeen(t.peers[a]) ensures CohortReported(t) {
      assert StartSeen(s.peers[a]);
      ReportsStay(s, t);
    }
  }

  lemma {:induction false} ExtendsItself(s: System)
    ensures Extends(s, s)
  {
    forall a | a in s.job.agents ensures C.SlotKept(s.job.agents[a], s.job.agents[a]) {
    }
  }

  /** Every action of every participant keeps the system safe. */
  lemma {:induction false} StepKeepsSafe(s: System, act: Action)
    requires Safe(s)
    ensures Safe(Do(s, act)) && Extends(s, Do(s, act))
  {
    hide Safe, Extends, AllReady, GetsCancel;
    ExtendsItself(s);
    match act
    case ControllerStarts(ms) =>
      if AllReady(s.job) {
        StartsKeepSafe(s, ms);
      }
    case ControllerCancels(reason) =>
      CancelsKeepSafe(s, reason);
    case ControllerTakes(a) =>
      if a in s.peers && s.peers[a].up != [] {
        DeliveryKeepsSafe(s, a);
      }
    case _ =>
      if act.a in s.peers {
        PeerActionKeepsSafe(s, act);
      }
  }

  lemma {:induction false} DeliveryKeepsSafe(s: System, a: string)
    requires Safe(s) && a in s.peers && s.peers[a].up != []
    ensures Safe(Do(s, ControllerTakes(a))) && Extends(s, Do(s, ControllerTakes(a)))
  {
    hide Link, StartSeen, CohortReported, C.SlotKept, AcceptReply, Answered, Extends;
    var f := s.peers[a].up[0];
    ControllerTakesKeepsLink(s.job, a, s.peers[a]);
    C.ApplyInvariant(s.job, C.Deliver(a, f));
    C.DeliveryKeepsOthers(s.job, a, f);
    OneLinkKeepsSafe(s, a, ControllerSpec.Accept(s.job, a, f), Answered(s.peers[a], AcceptReply(s.job, a, f)));
  }

  lemma {:induction false} PeerActionKeepsSafe(s: System, act: Action)
    requires Safe(s) && !act.Cohort() && !act.ControllerTakes? && act.a in s.peers
    ensures Safe(Do(s, act)) && Extends(s, Do(s, act))
  {
    hide Link, StartSeen, CohortReported, C.SlotKept, PeerActs;
    assert C.SlotInvariant(s.job, act.a, s.job.agents[act.a]);
    PeerActsKeepsLink(s.job.jobId, s.job.readySignature, act.a, s.job.agents[act.a], s.peers[act.a], act);
    SlotKeptItself(s.job.agents[act.a]);
    OneLinkKeepsSafe(s, act.a, s.job, PeerActs(s.peers[act.a], act));
  }

  lemma {:induction false} InitSafe(prepares: seq<PrepareFrame>, hellos: map<string, HelloFrame>)
    requires NewJob(prepares).Ok? && NewJob(prepares).value.agents.Keys <= hellos.Keys
    ensures Safe(Init(NewJob(prepares).value, hellos))
  {
    hide Link, StartSeen, CohortReported, NewJob;
    var s := Init(NewJob(prepares).value, hellos);
    C.NewJobInvariant(prepares);
    forall a | a in s.peers
      ensures Link(s.job.jobId, s.job.readySignature, a, s.job.agents[a], s.peers[a]) && !StartSeen(s.peers[a])
    {
      assert C.SlotInvariant(s.job, a, s.job.agents[a]);
      FreshLink(s.job.jobId, s.job.readySignature, a, s.job.agents[a], hellos[a]);
    }
  }

  lemma {:induction false} FreshLink(jobId: string, sig: Option<Signature>, a: string, slot: Slot, hello: HelloFrame)
    requires slot.phase.AwaitingHello? && slot.finalEvidence.None?
    ensures Link(jobId, sig, a, slot, FreshPeer(hello)) && !StartSeen(FreshPeer(hello))
  {
  }

  lemma {:induction false} RunKeepsSafe(s: System, acts: seq<Action>)
    requires Safe(s)
    ensures Safe(Run(s, acts)) && Extends(s, Run(s, acts))
  {
    ExtendsItself(s);
    if acts != [] {
      var shorter, last := acts[..|acts| - 1], acts[|acts| - 1];
      RunKeepsSafe(s, shorter);
      StepKeepsSafe(Run(s, shorter), last);
      ExtendsTrans(s, Run(s, shorter), Run(s, acts));
    }
  }

  lemma {:induction false} ExtendsTrans(s: System, t: System, u: System)
    requires Extends(s, t) && Extends(t, u)
    ensures Extends(s, u)
  {
    forall a | a in s.job.agents ensures C.SlotKept(s.job.agents[a], u.job.agents[a]) {
      assert C.SlotKept(s.job.agents[a], t.job.agents[a]);
      assert C.SlotKept(t.job.agents[a], u.job.agents[a]);
    }
    forall a | a in s.peers
      ensures s.peers[a].sent <= u.peers[a].sent && u.peers[a].agent.hello == s.peers[a].agent.hello
    {
      assert s.peers[a].sent <= t.peers[a].sent <= u.peers[a].sent;
      assert t.peers[a].agent.hello == s.peers[a].agent.hello;
    }
  }

  // ----- main results for every run, cancellations and failures included

  /** The start barrier. In every reachable state, if any agent is running or has a start frame
      on its way, every agent of the cohort has already sent a readiness report with all its
      sessions live, and all those reports carry one (protocol, inventory) signature. */
  lemma {:induction false} StartBarrier(prepares: seq<PrepareFrame>, hellos: map<string, HelloFrame>,
        acts: seq<Action>, a: string)
    requires NewJob(prepares).Ok? && NewJob(prepares).value.agents.Keys <= hellos.Keys
    requires var s := Run(Init(NewJob(prepares).value, hellos), acts); a in s.peers && StartSeen(s.peers[a])
    ensures var s := Run(Init(NewJob(prepares).value, hellos), acts);
      && s.job.readySignature.Some?
      && forall b :: b in NewJob(prepares).value.agents ==>
           && b in s.peers
           && SentGoodReady(s.peers[b].sent, NewJob(prepares).value.agents[b], s.job.readySignature.value)
  {
    var s0 := Init(NewJob(prepares).value, hellos);
    var s := Run(s0, acts);
    InitSafe(prepares, hellos);
    RunKeepsSafe(s0, acts);
    var sig := s.job.readySignature.value;
    forall b | b in s0.job.agents ensures b in s.peers && SentGoodReady(s.peers[b].sent, s0.job.agents[b], sig) {
      assert b in s.peers.Keys;
      var f :| f in s.peers[b].sent && GoodReady(f, s.job.agents[b], sig);
      assert C.SlotKept(s0.job.agents[b], s.job.agents[b]);
      assert GoodReady(f, s0.job.agents[b], sig);
    }
  }

  /** Evidence integrity. In every reachable state, final evidence stored for an agent is what
      that agent itself put into a finished frame, an agent finishes at most once, and it
      reports ready at most once. */
  lemma {:induction false} EvidenceIntegrity(prepares: seq<PrepareFrame>, hellos: map<string, HelloFrame>,
        acts: seq<Action>, a: string)
    requires NewJob(prepares).Ok? && NewJob(prepares).value.agents.Keys <= hellos.Keys
    requires a in NewJob(prepares).value.agents
    ensures var s := Run(Init(NewJob(prepares).value, hellos), acts);
      && a in s.peers && a in s.job.agents
      && CountFinished(s.peers[a].sent) <= 1 && CountReady(s.peers[a].sent) <= 1
      && (s.job.agents[a].finalEvidence.Some? ==>
            Frame(Finished(FinishedFrame(s.job.jobId, s.job.agents[a].finalEvidence.value))) in s.peers[a].sent)
  {
    var s0 := Init(NewJob(prepares).value, hellos);
    InitSafe(prepares, hellos);
    RunKeepsSafe(s0, acts);
    assert a in s0.peers.Keys;
    assert Link(Run(s0, acts).job.jobId, Run(s0, acts).job.readySignature, a, Run(s0, acts).job.agents[a], Run(s0, acts).peers[a]);
  }

  /** Rejections that mean the frame names a wrong protocol, job, agent or evidence owner. */
  predicate Misaddressed(e: ControllerError) {
    e.UnsupportedProtocol? || e.UnknownAgent? || e.JobMismatch? || e.InvalidEvidence?
    || e.AgentMismatch?
  }

  predicate AgentMisaddressed(e: AgentError) {
    e.UnsupportedProtocol? || e.JobMismatch? || e.AgentMismatch? || e.JobNotPrepared?
  }

  /** The controller refuses this frame of agent `a` as misaddressed. */
  predicate RefusedAsMisaddressed(j: Job, a: string, f: WireFrame) {
    AcceptReply(j, a, f).Err? && Misaddressed(AcceptReply(j, a, f).error)
  }

  /** Whatever is cancelled or fails, an agent never refuses a frame as misaddressed, and the controller
      does so exactly when it takes a greeting pinned to another name while it still waits for one:
      every other rejection is about order, capability or readiness. */
  lemma {:induction false} NothingMisaddressed(prepares: seq<PrepareFrame>, hellos: map<string, HelloFrame>,
        acts: seq<Action>, a: string)
    requires NewJob(prepares).Ok? && NewJob(prepares).value.agents.Keys <= hellos.Keys
    requires a in NewJob(prepares).value.agents
    ensures var s := Run(Init(NewJob(prepares).value, hellos), acts);
      && a in s.peers && a in s.job.agents
      && (s.peers[a].down != [] ==>
            var r := AcceptFrame(s.peers[a].agent, s.peers[a].down[0]).reply; r.Err? ==> !AgentMisaddressed(r.error))
      && (s.peers[a].up != [] ==>
            var f := s.peers[a].up[0];
            && (RefusedAsMisaddressed(s.job, a, f) <==>
                  f.message.Hello? && s.job.agents[a].phase.AwaitingHello? && !PinnedCorrectly(a, hellos[a]))
            && (RefusedAsMisaddressed(s.job, a, f) ==>
                  AcceptReply(s.job, a, f) == Err(ControllerError.AgentMismatch(a, hellos[a].agentName.value))))
  {
    hide *;
    var s0 := Init(NewJob(prepares).value, hellos);
    InitSafe(prepares, hellos);
    RunKeepsSafe(s0, acts);
    InitialPeer(NewJob(prepares).value, hellos, a);
    ExtendsAt(s0, Run(s0, acts), a);
    WellAddressed(Run(s0, acts), a);
  }

  lemma {:induction false} InitialPeer(job: Job, hellos: map<string, HelloFrame>, a: string)
    requires a in job.agents && job.agents.Keys <= hellos.Keys
    ensures a in Init(job, hellos).peers && Init(job, hellos).peers[a] == FreshPeer(hellos[a])
    ensures Init(job, hellos).peers[a].agent.hello == hellos[a]
  {
  }

  lemma {:induction false} ExtendsAt(s: System, t: System, a: string)
    requires Extends(s, t) && a in s.peers
    ensures a in t.peers && t.peers[a].agent.hello == s.peers[a].agent.hello
  {
    assert a in t.peers.Keys;
  }

  lemma {:induction false} WellAddressed(s: System, a: string)
    requires Safe(s) && a in s.peers
    ensures a in s.job.agents
    ensures s.peers[a].down != [] ==>
      var r := AcceptFrame(s.peers[a].agent, s.peers[a].down[0]).reply; r.Err? ==> !AgentMisaddressed(r.error)
    ensures s.peers[a].up != [] ==>
      var f, hello := s.peers[a].up[0], s.peers[a].agent.hello;
      && (RefusedAsMisaddressed(s.job, a, f) <==>
            f.message.Hello? && s.job.agents[a].phase.AwaitingHello? && !PinnedCorrectly(a, hello))
      && (RefusedAsMisaddressed(s.job, a, f) ==>
            && !PinnedCorrectly(a, hello)
            && AcceptReply(s.job, a, f) == Err(ControllerError.AgentMismatch(a, hello.agentName.value)))
  {
    hide AcceptReply, AcceptFrame, SentGoodReady, StartSeen, CohortReported, RefusedAsMisaddressed;
    var p := s.peers[a];
    assert Link(s.job.jobId, s.job.readySignature, a, s.job.agents[a], p);
    assert C.SlotInvariant(s.job, a, s.job.agents[a]);
    if p.up != [] {
      assert p.up[0] == p.sent[|p.sent| - |p.up|];
      assert p.up[0] in p.sent;
      AgentFrameAddressed(s.job, a, p.agent.hello, p.up[0]);
    }
    if p.down != [] {
      assert p.down[0] in p.down;
      ControllerFrameAddressed(s.job.jobId, a, s.job.agents[a], p.agent, p.down[0]);
    }
  }

  lemma {:induction false} AgentFrameAddressed(j: Job, a: string, hello: HelloFrame, f: WireFrame)
    requires a in j.agents && AgentFrame(j.jobId, a, hello, f)
    ensures RefusedAsMisaddressed(j, a, f) <==>
      f.message.Hello? && j.agents[a].phase.AwaitingHello? && !PinnedCorrectly(a, hello)
    ensures RefusedAsMisaddressed(j, a, f) ==>
      !PinnedCorrectly(a, hello) && AcceptReply(j, a, f) == Err(ControllerError.AgentMismatch(a, hello.agentName.value))
  {
  }

  lemma {:induction false} ControllerFrameAddressed(jobId: string, a: string, slot: Slot, agent: AgentState,
        f: WireFrame)
    requires Identity(jobId, a, agent) && ControllerFrame(jobId, a, slot, f) && slot.prepare.shard.agentName == a
    requires f.message.Prepare? ==> PinnedCorrectly(a, agent.hello)
    ensures var r := AcceptFrame(agent, f).reply; r.Err? ==> !AgentMisaddressed(r.error)
  {
  }
}
