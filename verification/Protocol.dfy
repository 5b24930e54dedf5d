/** Wire frames and evidence exchanged by one controller and its agents. */
module Protocol {
  import opened Basics
  import Metrics

  const WIRE_PROTOCOL := "mcp-loadtest-dist/1"

  datatype SupportedScenario = Sustained | Pattern

  /** Deterministic global-to-local concurrency assignment. */
  datatype AgentShard = AgentShard(agentName: string, index: u32, agentCount: u32, concurrency: u32)

  /** Controller-side workload before sharding; each pattern is kept as one opaque text. */
  datatype WorkloadPlan = WorkloadPlan(
    scenario: SupportedScenario, globalConcurrency: u32, durationMs: u64,
    patterns: seq<string>, seed: u64)
  {
    function ForShard(shard: AgentShard): AgentWorkloadPlan {
      AgentWorkloadPlan(scenario, shard.concurrency, durationMs, patterns, Xor(seed, shard.index))
    }
  }

  datatype AgentWorkloadPlan = AgentWorkloadPlan(
    scenario: SupportedScenario, concurrency: u32, durationMs: u64,
    patterns: seq<string>, seed: nat)

  /** A latency histogram: its layout and the samples it counts. */
  datatype Histogram = Histogram(low: nat, high: nat, sigfig: nat, samples: multiset<nat>)

  const HDR_ENCODING := "hdr-v2-base64"

  /** The payload is what the codec decodes it to; `None` is a payload that does not decode. */
  datatype HistogramEvidence = HistogramEvidence(encoding: string, payload: Option<Histogram>, count: u64)

  datatype MetricsEvidence = MetricsEvidence(latency: HistogramEvidence, outcomes: Metrics.WireOutcomes)

  datatype ScenarioCounter =
    | HangCount | DeadlockCount | TotalCalls | SuccessfulCalls | ErrorCount
    | DivergenceCount | IncompleteWorkerCount | TeardownFailureCount

  /** Two counters are 32 bits wide, the others 64. */
  function CounterLimit(c: ScenarioCounter): nat {
    if c.HangCount? || c.DeadlockCount? then U32_LIMIT else U64_LIMIT
  }

  /** The struct of eight counters read as a multiset, one multiplicity per field. */
  type ScenarioCounts = c: multiset<ScenarioCounter> | forall k :: c[k] < CounterLimit(k) witness multiset{}

  datatype ScenarioOutcome = ScenarioOutcome(counts: ScenarioCounts, notes: seq<string>, hungForMs: seq<nat>)

  datatype AgentEvidence = AgentEvidence(
    agentName: string, shard: AgentShard, metrics: MetricsEvidence,
    perTool: map<string, MetricsEvidence>, scenarioOutcome: ScenarioOutcome,
    measurementElapsedMs: u64, startDelayMs: u64,
    targetProtocolVersion: string, toolInventoryHash: string)

  datatype HelloFrame = HelloFrame(
    agentName: Option<string>, binaryVersion: string,
    scenarios: seq<SupportedScenario>, maxConcurrency: u32)

  /** The remote target is carried as one opaque text. */
  datatype PrepareFrame = PrepareFrame(
    jobId: string, configDigest: string, target: string, plan: AgentWorkloadPlan,
    shard: AgentShard, heartbeatIntervalMs: u64)

  datatype ReadyFrame = ReadyFrame(
    jobId: string, agentName: string, liveWorkers: u32, requestedWorkers: u32,
    toolInventoryHash: string, targetProtocolVersion: string)

  datatype StartFrame = StartFrame(jobId: string, startAfterMs: u64)
  datatype ProgressFrame = ProgressFrame(jobId: string, sequence: u64, evidence: AgentEvidence)
  datatype HeartbeatFrame = HeartbeatFrame(jobId: string, sequence: u64)
  datatype FinishedFrame = FinishedFrame(jobId: string, evidence: AgentEvidence)
  datatype FailedFrame = FailedFrame(jobId: string, code: string, message: string, retryable: bool)
  datatype CancelFrame = CancelFrame(jobId: string, reason: string)
  datatype CancelledFrame = CancelledFrame(jobId: string, reason: string)

  datatype WireMessage =
    | Hello(hello: HelloFrame)
    | Prepare(prepare: PrepareFrame)
    | Ready(ready: ReadyFrame)
    | Start(start: StartFrame)
    | Progress(progress: ProgressFrame)
    | Heartbeat(heartbeat: HeartbeatFrame)
    | Finished(finished: FinishedFrame)
    | Failed(failed: FailedFrame)
    | Cancel(cancel: CancelFrame)
    | Cancelled(cancelled: CancelledFrame)
  {
    /** The job id of every message after the greeting. */
    function JobId(): Option<string> {
      match this
      case Hello(_) => None
      case Prepare(f) => Some(f.jobId)
      case Ready(f) => Some(f.jobId)
      case Start(f) => Some(f.jobId)
      case Progress(f) => Some(f.jobId)
      case Heartbeat(f) => Some(f.jobId)
      case Finished(f) => Some(f.jobId)
      case Failed(f) => Some(f.jobId)
      case Cancel(f) => Some(f.jobId)
      case Cancelled(f) => Some(f.jobId)
    }
  }

  datatype WireFrame = WireFrame(protocol: string, message: WireMessage)

  /** Wrap a message in the current protocol envelope. */
  function Frame(message: WireMessage): WireFrame {
    WireFrame(WIRE_PROTOCOL, message)
  }

  /** The evidence names the expected agent twice: itself and its shard. */
  predicate EvidenceNames(expected: string, evidence: AgentEvidence) {
    evidence.agentName == expected && evidence.shard.agentName == expected
  }
}
