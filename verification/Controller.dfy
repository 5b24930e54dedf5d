/** The controller state machine: an object that updates its fields in place, one method per event. */
module Controller {
  import opened Basics
  import opened Ordering
  import opened Protocol
  import opened ControllerSpec

  class ControllerJobState {
    var jobId: string
    var agents: map<string, Slot>
    var readySignature: Option<Signature>

    function View(): Job
      reads this
    {
      Job(jobId, agents, readySignature)
    }

    constructor (jobId: string, agents: map<string, Slot>)
      ensures View() == Job(jobId, agents, None)
    {
      this.jobId := jobId;
      this.agents := agents;
      this.readySignature := None;
    }

    static method New(prepares: seq<PrepareFrame>) returns (r: Result<ControllerJobState, ControllerError>)
      ensures r.Err? ==> NewJob(prepares) == Err(r.error)
      ensures r.Ok? ==> fresh(r.value) && NewJob(prepares) == Ok(r.value.View())
    {
      if prepares == [] {
        return Err(EmptyCohort);
      }
      var jobId := prepares[0].jobId;
      var agents: map<string, Slot> := map[];
      for i := 0 to |prepares|
        invariant Enrol(jobId, prepares[..i]) == Ok(agents)
      {
        var prepare := prepares[i];
        assert prepares[..i + 1][..i] == prepares[..i];
        if prepare.jobId != jobId {
          EnrolStopsAtFirstError(jobId, prepares, i + 1);
          return Err(JobMismatch(jobId, prepare.jobId));
        }
        var name := prepare.shard.agentName;
        if name in agents {
          EnrolStopsAtFirstError(jobId, prepares, i + 1);
          return Err(DuplicateAgent(name));
        }
        agents := agents[name := Slot(AwaitingHello, prepare, None, None, None)];
      }
      assert prepares[..|prepares|] == prepares;
      var state := new ControllerJobState(jobId, agents);
      r := Ok(state);
    }

    method Accept(agent: string, frame: WireFrame) returns (r: Reply)
      modifies this
      ensures r == AcceptReply(old(View()), agent, frame)
      ensures View() == ControllerSpec.Accept(old(View()), agent, frame)
    {
      if frame.protocol != WIRE_PROTOCOL {
        return Err(UnsupportedProtocol(frame.protocol));
      }
      if agent !in agents {
        return Err(UnknownAgent(agent));
      }
      var state := agents[agent];
      assert agents[agent := state] == agents;
      if state.phase.AwaitingHello? && frame.message.Hello? {
        var problem := HelloProblem(agent, frame.message.hello, state.prepare);
        if problem.Some? {
          return Err(problem.value);
        }
        agents := agents[agent := state.(phase := Preparing)];
        return Ok(Some(Frame(Prepare(state.prepare))));
      } else if state.phase.Preparing? && frame.message.Ready? {
        r := AcceptReady(agent, frame.message.ready);
      } else if state.phase.Running? && frame.message.Progress? {
        var progress := frame.message.progress;
        if progress.jobId != jobId {
          return Err(JobMismatch(jobId, progress.jobId));
        }
        var problem := EvidenceProblem(agent, progress.evidence);
        if problem.Some? {
          return Err(problem.value);
        }
        if state.latestProgress.None? || progress.sequence > state.latestProgress.value.sequence {
          agents := agents[agent := state.(latestProgress := Some(Checkpoint(progress.sequence, progress.evidence)))];
        }
        return Ok(None);
      } else if (state.phase.Preparing? || state.phase.IsReady? || state.phase.Running?) && frame.message.Heartbeat? {
        if frame.message.heartbeat.jobId != jobId {
          return Err(JobMismatch(jobId, frame.message.heartbeat.jobId));
        }
        return Ok(None);
      } else if state.phase.Running? && frame.message.Finished? {
        var finished := frame.message.finished;
        if finished.jobId != jobId {
          return Err(JobMismatch(jobId, finished.jobId));
        }
        var problem := EvidenceProblem(agent, finished.evidence);
        if problem.Some? {
          return Err(problem.value);
        }
        agents := agents[agent := state.(finalEvidence := Some(finished.evidence), phase := IsFinished)];
        return Ok(None);
      } else if state.phase.Cancelling? && frame.message.Cancelled? {
        if frame.message.cancelled.jobId != jobId {
          return Err(JobMismatch(jobId, frame.message.cancelled.jobId));
        }
        agents := agents[agent := state.(phase := IsCancelled)];
        return Ok(None);
      } else if frame.message.Failed? && !state.phase.Terminal() {
        if frame.message.failed.jobId != jobId {
          return Err(JobMismatch(jobId, frame.message.failed.jobId));
        }
        agents := agents[agent := state.(failure := Some(frame.message.failed), phase := IsFailed)];
        return Ok(None);
      } else {
        return Err(UnexpectedFrame(agent, state.phase, frame.message));
      }
    }

    /** The readiness arm of `Accept`; a shortfall or a mismatch fails the agent for good. */
    method AcceptReady(agent: string, ready: ReadyFrame) returns (r: Reply)
      requires agent in agents && agents[agent].phase.Preparing?
      modifies this
      ensures r == OnReady(old(jobId), old(readySignature), agent, old(agents[agent]), ready).reply
      ensures jobId == old(jobId)
      ensures agents == old(agents)[agent := OnReady(old(jobId), old(readySignature), agent, old(agents[agent]), ready).slot]
      ensures readySignature == OnReady(old(jobId), old(readySignature), agent, old(agents[agent]), ready).signature
    {
      var state := agents[agent];
      assert agents[agent := state] == agents;
      if ready.jobId != jobId {
        return Err(JobMismatch(jobId, ready.jobId));
      }
      if ready.agentName != agent {
        return Err(AgentMismatch(agent, ready.agentName));
      }
      if ready.requestedWorkers != state.prepare.shard.concurrency
        || ready.liveWorkers != ready.requestedWorkers
        || ready.toolInventoryHash == ""
        || ready.targetProtocolVersion == ""
      {
        agents := agents[agent := state.(phase := IsFailed)];
        return Err(ReadinessShortfall(agent, state.prepare.shard.concurrency, ready.liveWorkers));
      }
      if readySignature.Some? {
        var expected := readySignature.value;
        if ready.targetProtocolVersion != expected.protocolVersion {
          agents := agents[agent := state.(phase := IsFailed)];
          return Err(TargetProtocolMismatch(agent, expected.protocolVersion, ready.targetProtocolVersion));
        }
        if ready.toolInventoryHash != expected.inventoryHash {
          agents := agents[agent := state.(phase := IsFailed)];
          return Err(ToolInventoryMismatch(agent));
        }
      } else {
        readySignature := Some(Signature(ready.targetProtocolVersion, ready.toolInventoryHash));
      }
      agents := agents[agent := state.(phase := IsReady)];
      return Ok(None);
    }

    method CohortReady() returns (b: bool)
      ensures b == AllReady(View())
    {
      b := forall a :: a in agents ==> agents[a].phase.IsReady?;
    }

    method StartAll(startAfterMs: u64) returns (r: Result<seq<(string, WireFrame)>, ControllerError>)
      modifies this`agents
      ensures View() == ControllerSpec.StartAll(old(View()))
      ensures r.Err? <==> !AllReady(old(View()))
      ensures r.Err? ==> r.error == CohortNotReady
      ensures r.Ok? ==> EachGets(r.value, Sorted(old(agents).Keys), StartMessage(old(View()), startAfterMs))
    {
      hide PhasesReplaced, Addressed, Sorted, ControllerSpec.StartAll, AllReady;
      ghost var before := View();
      NotReadyStays(before);
      var ready := CohortReady();
      if !ready {
        return Err(CohortNotReady);
      }
      var frame := Frame(Start(StartFrame(jobId, startAfterMs)));
      var names := Sorted(agents.Keys);
      var out: seq<(string, WireFrame)> := [];
      VisitNone(before, names, StartedPhase, frame);
      for i := 0 to |names|
        invariant agents == PhasesReplaced(before.agents, names[..i], StartedPhase)
        invariant out == Addressed(names[..i], frame)
      {
        VisitNext(before, names, i, StartedPhase, frame);
        agents := agents[names[i] := agents[names[i]].(phase := Running)];
        out := out + [(names[i], frame)];
      }
      assert names[..|names|] == names;
      AllStarted(before, names);
      AddressedEach(names, frame);
      r := Ok(out);
    }

    method CancelAll(reason: string) returns (out: seq<(string, WireFrame)>)
      modifies this`agents
      ensures View() == ControllerSpec.CancelAll(old(View()))
      ensures EachGets(out, CancelTargets(old(View()), Sorted(old(agents).Keys)), CancelMessage(old(View()), reason))
    {
      hide PhasesReplaced, Addressed, CancelTargets, Sorted, ControllerSpec.CancelAll;
      ghost var before := View();
      var frame := Frame(Cancel(CancelFrame(jobId, reason)));
      var names := Sorted(agents.Keys);
      out := [];
      VisitNone(before, names, CancelledPhase, frame);
      for i := 0 to |names|
        invariant agents == PhasesReplaced(before.agents, names[..i], CancelledPhase)
        invariant out == Addressed(CancelTargets(before, names[..i]), frame)
      {
        VisitNext(before, names, i, CancelledPhase, frame);
        CancelNext(before, names, i, frame);
        var name := names[i];
        var state := agents[name];
        if !state.phase.Terminal() {
          if state.phase.AwaitingHello? {
            agents := agents[name := state.(phase := IsCancelled)];
          } else {
            agents := agents[name := state.(phase := Cancelling)];
            out := out + [(name, frame)];
          }
        } else {
          SameSlot(agents, name);
        }
      }
      assert names[..|names|] == names;
      AllCancelled(before, names);
      AddressedEach(CancelTargets(before, names), frame);
    }

    method IsTerminal() returns (b: bool)
      ensures b == AllTerminal(View())
    {
      b := forall a :: a in agents ==> agents[a].phase.Terminal();
    }

    method HasFailed() returns (b: bool)
      ensures b == HasFailure(View())
    {
      b := exists a :: a in agents && agents[a].phase.IsFailed?;
    }

    /** The final result when there is one, otherwise the newest checkpoint. */
    method LatestEvidenceOf(agent: string) returns (r: Option<AgentEvidence>)
      ensures r == LatestEvidence(View(), agent)
    {
      if agent !in agents {
        return None;
      }
      var state := agents[agent];
      if state.finalEvidence.Some? {
        return state.finalEvidence;
      }
      if state.latestProgress.Some? {
        return Some(state.latestProgress.value.evidence);
      }
      return None;
    }

    /** All final evidence in ascending agent-name order, or the first agent without any. */
    method FinalEvidence() returns (r: Result<seq<AgentEvidence>, ControllerError>)
      ensures r.Ok? <==> forall a :: a in agents ==> agents[a].finalEvidence.Some?
      ensures r.Ok? ==> |r.value| == |agents| == |Sorted(agents.Keys)|
      ensures r.Ok? ==> forall i :: 0 <= i < |r.value| ==>
        Sorted(agents.Keys)[i] in agents && agents[Sorted(agents.Keys)[i]].finalEvidence == Some(r.value[i])
      ensures r.Err? ==> r.error.MissingFinalEvidence?
      ensures r.Err? ==> r.error.name in agents && agents[r.error.name].finalEvidence.None?
      ensures r.Err? ==> forall a :: a in agents && Lt(a, r.error.name) ==> agents[a].finalEvidence.Some?
    {
      var names := Sorted(agents.Keys);
      var out: seq<AgentEvidence> := [];
      for i := 0 to |names|
        invariant |out| == i
        invariant forall k :: 0 <= k < i ==> names[k] in agents && agents[names[k]].finalEvidence == Some(out[k])
      {
        assert names[i] in names;
        var e := agents[names[i]].finalEvidence;
        if e.None? {
          forall a | a in agents && Lt(a, names[i]) ensures agents[a].finalEvidence.Some? {
            var k := PlaceBefore(names, i, a);
          }
          return Err(MissingFinalEvidence(names[i]));
        }
        out := out + [e.value];
      }
      forall a | a in agents ensures agents[a].finalEvidence.Some? {
        var k :| 0 <= k < |names| && names[k] == a;
      }
      r := Ok(out);
    }
  }

  /** The same frame for every name, in order. */
  function Addressed(names: seq<string>, frame: WireFrame): seq<(string, WireFrame)> {
    if names == [] then []
    else Addressed(names[..|names| - 1], frame) + [(names[|names| - 1], frame)]
  }

  /** In an ascending list, what is smaller than an element stands before it. */
  lemma {:induction false} PlaceBefore(names: seq<string>, i: nat, a: string) returns (k: nat)
    requires Ascending(names) && i < |names| && a in names && Lt(a, names[i])
    ensures k < i && names[k] == a
  {
    k :| 0 <= k < |names| && names[k] == a;
    LtAsymmetric(a, names[i]);
  }

  /** One frame per name: position `i` addresses the `i`-th name. */
  ghost predicate EachGets(out: seq<(string, WireFrame)>, names: seq<string>, frame: WireFrame) {
    |out| == |names| && forall i :: 0 <= i < |names| ==> out[i] == (names[i], frame)
  }

  lemma {:induction false} AddressedEach(names: seq<string>, frame: WireFrame)
    ensures EachGets(Addressed(names, frame), names, frame)
  {
    if names != [] {
      AddressedEach(names[..|names| - 1], frame);
    }
  }

  /** The names a cancellation frame is addressed to, in the order they are visited. */
  function CancelTargets(j: Job, names: seq<string>): seq<string> {
    if names == [] then []
    else
      var before := CancelTargets(j, names[..|names| - 1]);
      var last := names[|names| - 1];
      if GetsCancel(j, last) then before + [last] else before
  }

  /** The agents that have been greeted and are not over yet, in ascending order. */
  lemma {:induction false} CancelTargetsMeaning(j: Job, names: seq<string>)
    requires Ascending(names)
    ensures Ascending(CancelTargets(j, names))
    ensures forall a :: a in CancelTargets(j, names) <==>
      && a in names && a in j.agents
      && j.agents[a].phase !in {AwaitingHello, IsFinished, IsFailed, IsCancelled}
  {
    if names != [] {
      var shorter, last := names[..|names| - 1], names[|names| - 1];
      assert names == shorter + [last];
      CancelTargetsMeaning(j, shorter);
      forall a | a in shorter ensures Lt(a, last) {
        var k :| 0 <= k < |shorter| && shorter[k] == a;
        assert names[k] == a;
      }
    }
  }

  /** Replace the phase of the named slots one after the other. */
  function PhasesReplaced(before: map<string, Slot>, names: seq<string>, f: Phase -> Phase): map<string, Slot> {
    if names == [] then before
    else
      var m := PhasesReplaced(before, names[..|names| - 1], f);
      var last := names[|names| - 1];
      if last in m then m[last := m[last].(phase := f(m[last].phase))] else m
  }

  lemma {:induction false} ReplacedKeys(before: map<string, Slot>, names: seq<string>, f: Phase -> Phase)
    ensures PhasesReplaced(before, names, f).Keys == before.Keys
  {
    if names != [] {
      ReplacedKeys(before, names[..|names| - 1], f);
    }
  }

  lemma {:induction false} Untouched(before: map<string, Slot>, names: seq<string>, f: Phase -> Phase, a: string)
    requires a in before && a !in names
    ensures a in PhasesReplaced(before, names, f) && PhasesReplaced(before, names, f)[a] == before[a]
  {
    if names != [] {
      Untouched(before, names[..|names| - 1], f, a);
    }
  }

  lemma {:induction false} ReplacedOnce(before: map<string, Slot>, names: seq<string>, f: Phase -> Phase, a: string)
    requires Ascending(names) && a in names && a in before
    ensures a in PhasesReplaced(before, names, f)
    ensures PhasesReplaced(before, names, f)[a] == before[a].(phase := f(before[a].phase))
  {
    var shorter, last := names[..|names| - 1], names[|names| - 1];
    AscendingFresh(names, |names| - 1);
    if a == last {
      Untouched(before, shorter, f, a);
    } else {
      assert names == shorter + [last];
      ReplacedOnce(before, shorter, f, a);
    }
  }

  lemma {:induction false} SameSlot(agents: map<string, Slot>, name: string)
    requires name in agents
    ensures agents[name := agents[name].(phase := agents[name].phase)] == agents
  {
  }

  lemma {:induction false} NotReadyStays(j: Job)
    ensures !AllReady(j) ==> ControllerSpec.StartAll(j) == j
  {
  }

  lemma {:induction false} VisitNone(j: Job, names: seq<string>, f: Phase -> Phase, frame: WireFrame)
    ensures PhasesReplaced(j.agents, names[..0], f) == j.agents
    ensures Addressed(names[..0], frame) == [] && Addressed(CancelTargets(j, names[..0]), frame) == []
  {
  }

  /** One round of a loop over the names in map order. */
  lemma {:induction false} VisitNext(j: Job, names: seq<string>, i: nat, f: Phase -> Phase, frame: WireFrame)
    requires names == Sorted(j.agents.Keys) && i < |names|
    ensures var m := PhasesReplaced(j.agents, names[..i], f);
      && names[i] in m && names[i] in j.agents && m[names[i]] == j.agents[names[i]]
      && PhasesReplaced(j.agents, names[..i + 1], f) == m[names[i] := m[names[i]].(phase := f(m[names[i]].phase))]
    ensures Addressed(names[..i + 1], frame) == Addressed(names[..i], frame) + [(names[i], frame)]
  {
    hide Sorted, Ascending;
    assert names[..i + 1][..i] == names[..i];
    assert names[i] in names;
    ReplacedKeys(j.agents, names[..i], f);
    AscendingFresh(names, i);
    Untouched(j.agents, names[..i], f, names[i]);
  }

  lemma {:induction false} CancelNext(j: Job, names: seq<string>, i: nat, frame: WireFrame)
    requires i < |names|
    ensures Addressed(CancelTargets(j, names[..i + 1]), frame)
         == Addressed(CancelTargets(j, names[..i]), frame) + if GetsCancel(j, names[i]) then [(names[i], frame)] else []
  {
    assert names[..i + 1][..i] == names[..i];
    var before := CancelTargets(j, names[..i]);
    assert (before + [names[i]])[..|before|] == before;
  }

  function StartedPhase(p: Phase): Phase {
    Running
  }

  lemma {:induction false} AllStarted(j: Job, names: seq<string>)
    requires names == Sorted(j.agents.Keys) && AllReady(j)
    ensures j.(agents := PhasesReplaced(j.agents, names, StartedPhase)) == ControllerSpec.StartAll(j)
  {
    ReplacedKeys(j.agents, names, StartedPhase);
    forall a | a in j.agents
      ensures PhasesReplaced(j.agents, names, StartedPhase)[a] == j.agents[a].(phase := Running)
    {
      ReplacedOnce(j.agents, names, StartedPhase, a);
    }
  }

  lemma {:induction false} AllCancelled(j: Job, names: seq<string>)
    requires names == Sorted(j.agents.Keys)
    ensures j.(agents := PhasesReplaced(j.agents, names, CancelledPhase)) == ControllerSpec.CancelAll(j)
  {
    ReplacedKeys(j.agents, names, CancelledPhase);
    forall a | a in j.agents
      ensures PhasesReplaced(j.agents, names, CancelledPhase)[a]
           == j.agents[a].(phase := CancelledPhase(j.agents[a].phase))
    {
      ReplacedOnce(j.agents, names, CancelledPhase, a);
    }
  }
}
