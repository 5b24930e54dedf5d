/** Where everything comes from that one side learns of the other: from a call, with the call's arguments. */
module Provenance {
  import opened Basics
  import opened Protocol
  import opened ControllerSpec
  import opened Agent
  import opened Network
  import C = ControllerRuns
  import H = ControllerHistory

  /** A frame of agent `a` was put on the wire by a call with exactly what the frame carries. */
  ghost predicate SaidBy(acts: seq<Action>, a: string, f: WireFrame) {
    f.protocol == "mcp-loadtest-dist/1" &&
    match f.message
    case Hello(_) => Greet(a) in acts
    case Ready(ready) => AgentReadies(a, ready) in acts
    case Progress(p) => AgentProgresses(a, p.sequence, p.evidence) in acts
    case Heartbeat(h) => AgentBeats(a, h.sequence) in acts
    case Finished(x) => AgentFinishes(a, x.evidence) in acts
    case Failed(x) => AgentFails(a, x.code, x.message, x.retryable) in acts
    case Cancelled(x) => AgentAcknowledges(a, x.reason) in acts
    case _ => false
  }

  /** A frame to an agent carries its assignment, or what the cohort was started or cancelled with. */
  ghost predicate AskedBy(acts: seq<Action>, prepare: PrepareFrame, f: WireFrame) {
    f.protocol == "mcp-loadtest-dist/1" &&
    match f.message
    case Prepare(p) => p == prepare
    case Start(x) => ControllerStarts(x.startAfterMs) in acts
    case Cancel(x) => ControllerCancels(x.reason) in acts
    case _ => false
  }

  /** What the controller has stored of agent `a` is what that agent was told to say. */
  ghost predicate StoredFrom(acts: seq<Action>, a: string, slot: Slot) {
    && (slot.latestProgress.Some? ==>
          AgentProgresses(a, slot.latestProgress.value.sequence, slot.latestProgress.value.evidence) in acts)
    && (slot.finalEvidence.Some? ==> AgentFinishes(a, slot.finalEvidence.value) in acts)
    && (slot.failure.Some? ==>
          AgentFails(a, slot.failure.value.code, slot.failure.value.message, slot.failure.value.retryable) in acts)
  }

  ghost predicate LinkTraced(acts: seq<Action>, a: string, slot: Slot, p: Peer) {
    && (forall f :: f in p.sent ==> SaidBy(acts, a, f))
    && (forall f :: f in p.down ==> AskedBy(acts, slot.prepare, f))
    && StoredFrom(acts, a, slot)
  }

  ghost predicate Traced(s: System, acts: seq<Action>) {
    forall a :: a in s.peers && a in s.job.agents ==> LinkTraced(acts, a, s.job.agents[a], s.peers[a])
  }

  lemma {:induction false} MoreActs(acts: seq<Action>, more: seq<Action>, a: string, slot: Slot, p: Peer)
    requires LinkTraced(acts, a, slot, p) && forall act :: act in acts ==> act in more
    ensures LinkTraced(more, a, slot, p)
  {
  }

  lemma {:induction false} UtteranceSaid(agent: AgentState, act: Action, acts: seq<Action>)
    requires act.Speaks() && act in acts
    ensures Utterance(agent, act).reply.Ok? ==> SaidBy(acts, act.a, Utterance(agent, act).reply.value)
  {
  }

  lemma {:induction false} PeerTraced(acts: seq<Action>, slot: Slot, p: Peer, act: Action)
    requires !act.Cohort() && !act.ControllerTakes? && act in acts && LinkTraced(acts, act.a, slot, p)
    ensures LinkTraced(acts, act.a, slot, PeerActs(p, act))
  {
    hide SaidBy, AskedBy, StoredFrom, Utterance;
    var q := PeerActs(p, act);
    if act.AgentTakes? {
      assert forall f :: f in q.down ==> f in p.down;
    } else if !(act.Greet? && p.greeted) {
      UtteranceSaid(p.agent, act, acts);
      var said := Utterance(p.agent, act);
      assert said.reply.Ok? ==> forall f :: f in q.sent ==> f in p.sent || f == said.reply.value;
    }
  }

  /** What a delivered frame leaves in the slot was said. */
  lemma {:induction false} DeliveryStored(j: Job, a: string, f: WireFrame, acts: seq<Action>)
    requires a in j.agents && SaidBy(acts, a, f) && StoredFrom(acts, a, j.agents[a])
    ensures a in Accept(j, a, f).agents && StoredFrom(acts, a, Accept(j, a, f).agents[a])
    ensures Accept(j, a, f).agents[a].prepare == j.agents[a].prepare
  {
    hide Accept;
    H.StoredAfter(j, C.Deliver(a, f), a);
    assert C.Apply(j, C.Deliver(a, f)) == Accept(j, a, f);
  }

  /** The only answer to a frame is the assignment. */
  lemma {:induction false} AnswerAsked(j: Job, a: string, f: WireFrame, acts: seq<Action>)
    requires a in j.agents
    ensures var r := AcceptReply(j, a, f); r.Ok? && r.value.Some? ==> AskedBy(acts, j.agents[a].prepare, r.value.value)
  {
    H.AnswerIs(j, C.Deliver(a, f));
    hide AcceptReply;
  }

  lemma {:induction false} DeliveryTraced(j: Job, a: string, p: Peer, acts: seq<Action>)
    requires a in j.agents && p.up != [] && Queued(p) && LinkTraced(acts, a, j.agents[a], p)
    ensures a in Accept(j, a, p.up[0]).agents
    ensures LinkTraced(acts, a, Accept(j, a, p.up[0]).agents[a], Answered(p, AcceptReply(j, a, p.up[0])))
  {
    var f := p.up[0];
    assert f == p.sent[|p.sent| - |p.up|];
    assert f in p.sent;
    hide SaidBy, AskedBy, StoredFrom, Accept, AcceptReply;
    DeliveryStored(j, a, f, acts);
    AnswerAsked(j, a, f, acts);
  }

  lemma {:induction false} PushTraced(acts: seq<Action>, a: string, slot: Slot, slot': Slot, p: Peer, f: WireFrame)
    requires LinkTraced(acts, a, slot, p) && AskedBy(acts, slot.prepare, f)
    requires slot' == slot.(phase := slot'.phase)
    ensures LinkTraced(acts, a, slot', p) && LinkTraced(acts, a, slot', p.(down := p.down + [f]))
  {
    hide SaidBy, AskedBy;
  }

  lemma {:induction false} QueueOf(s: System, a: string)
    requires Safe(s) && a in s.peers
    ensures a in s.job.agents && Queued(s.peers[a])
  {
    assert Link(s.job.jobId, s.job.readySignature, a, s.job.agents[a], s.peers[a]);
  }

  lemma {:induction false} StartsTraced(s: System, acts: seq<Action>, ms: u64)
    requires Traced(s, acts) && ControllerStarts(ms) in acts
    ensures Traced(Do(s, ControllerStarts(ms)), acts)
  {
    if AllReady(s.job) {
      var f := StartMessage(s.job, ms);
      forall a | a in s.peers && a in s.job.agents
        ensures LinkTraced(acts, a, s.job.agents[a].(phase := Running), s.peers[a].(down := s.peers[a].down + [f]))
      {
        PushTraced(acts, a, s.job.agents[a], s.job.agents[a].(phase := Running), s.peers[a], f);
      }
      hide LinkTraced;
    }
  }

  lemma {:induction false} CancelsTraced(s: System, acts: seq<Action>, reason: string)
    requires Traced(s, acts) && ControllerCancels(reason) in acts
    ensures Traced(Do(s, ControllerCancels(reason)), acts)
  {
    var f := CancelMessage(s.job, reason);
    forall a | a in s.peers && a in s.job.agents
      ensures var slot := s.job.agents[a].(phase := CancelledPhase(s.job.agents[a].phase));
        LinkTraced(acts, a, slot, s.peers[a]) && LinkTraced(acts, a, slot, s.peers[a].(down := s.peers[a].down + [f]))
    {
      var slot := s.job.agents[a].(phase := CancelledPhase(s.job.agents[a].phase));
      PushTraced(acts, a, s.job.agents[a], slot, s.peers[a], f);
    }
    hide LinkTraced;
  }

  lemma {:induction false} TakeTraced(s: System, acts: seq<Action>, a: string)
    requires Safe(s) && Traced(s, acts)
    ensures Traced(Do(s, ControllerTakes(a)), acts)
  {
    hide LinkTraced, Accept, AcceptReply, Answered, Queued;
    if a in s.peers && s.peers[a].up != [] {
      QueueOf(s, a);
      DeliveryTraced(s.job, a, s.peers[a], acts);
      C.DeliveryKeepsOthers(s.job, a, s.peers[a].up[0]);
      DeliveryAddsNobody(s.job, a, s.peers[a].up[0]);
      hide Safe;
    }
  }

  lemma {:induction false} DeliveryAddsNobody(j: Job, a: string, f: WireFrame)
    ensures Accept(j, a, f).agents.Keys == j.agents.Keys
  {
    hide OnMessage;
  }

  lemma {:induction false} CallTraced(s: System, acts: seq<Action>, act: Action)
    requires Traced(s, acts) && !act.Cohort() && !act.ControllerTakes? && act in acts
    ensures Traced(Do(s, act), acts)
  {
    if act.a in s.peers && act.a in s.job.agents {
      PeerTraced(acts, s.job.agents[act.a], s.peers[act.a], act);
    }
    hide LinkTraced, PeerActs;
  }

  lemma {:induction false} StepTraced(s: System, acts: seq<Action>, act: Action)
    requires Safe(s) && Traced(s, acts)
    ensures Traced(Do(s, act), acts + [act])
  {
    var all := acts + [act];
    assert act in all && forall b :: b in acts ==> b in all;
    forall a | a in s.peers && a in s.job.agents ensures LinkTraced(all, a, s.job.agents[a], s.peers[a]) {
      MoreActs(acts, all, a, s.job.agents[a], s.peers[a]);
    }
    assert Traced(s, all);
    hide Traced, Safe, Do;
    match act
    case ControllerStarts(ms) => StartsTraced(s, all, ms);
    case ControllerCancels(reason) => CancelsTraced(s, all, reason);
    case ControllerTakes(a) => TakeTraced(s, all, a);
    case _ => CallTraced(s, all, act);
  }

  lemma {:induction false} InitTraced(prepares: seq<PrepareFrame>, hellos: map<string, HelloFrame>)
    requires NewJob(prepares).Ok? && NewJob(prepares).value.agents.Keys <= hellos.Keys
    ensures Traced(Init(NewJob(prepares).value, hellos), [])
  {
    NewJobStoresNothing(prepares);
    hide NewJob;
  }

  lemma {:induction false} NewJobStoresNothing(prepares: seq<PrepareFrame>)
    requires NewJob(prepares).Ok?
    ensures forall a :: a in NewJob(prepares).value.agents ==>
      var slot := NewJob(prepares).value.agents[a];
      slot.phase == AwaitingHello && slot.latestProgress == None && slot.finalEvidence == None && slot.failure == None
  {
    C.EnrolledSlots(prepares[0].jobId, prepares);
    hide Enrol;
    var j := NewJob(prepares).value;
    forall a | a in j.agents
      ensures j.agents[a].phase == AwaitingHello && j.agents[a].latestProgress == None
      ensures j.agents[a].finalEvidence == None && j.agents[a].failure == None
    {
      assert C.EnrolledFrom(j.jobId, prepares, a, j.agents[a]);
    }
  }

  lemma {:induction false} RunTraced(s: System, acts: seq<Action>)
    requires Safe(s) && Traced(s, [])
    ensures Traced(Run(s, acts), acts)
  {
    hide Safe, Traced, Do;
    if acts != [] {
      var shorter, last := acts[..|acts| - 1], acts[|acts| - 1];
      RunTraced(s, shorter);
      RunKeepsSafe(s, shorter);
      StepTraced(Run(s, shorter), shorter, last);
      assert shorter + [last] == acts;
    }
  }

  /** In every reachable state, whatever an agent has sent was the subject of a call of that agent with
      exactly those arguments; what waits for an agent is its own assignment, or a start or a cancellation
      with the lead time or reason the controller was called with; and what the controller has stored as
      progress, result or failure of an agent is what that agent's caller passed. */
  lemma {:induction false} NothingInvented(prepares: seq<PrepareFrame>, hellos: map<string, HelloFrame>, acts: seq<Action>)
    requires NewJob(prepares).Ok? && NewJob(prepares).value.agents.Keys <= hellos.Keys
    ensures Traced(Run(Init(NewJob(prepares).value, hellos), acts), acts)
  {
    hide *;
    InitSafe(prepares, hellos);
    InitTraced(prepares, hellos);
    RunTraced(Init(NewJob(prepares).value, hellos), acts);
  }
}
