# Load-test protocol and measurement model

This project models the deterministic cores of an MCP load-testing tool in Dafny and proves what
they are for. `dafny verify dfyconfig.toml` checks everything.

**Distributed runs.** A controller drives a cohort of short-lived agents through greeting,
preparation, readiness, start, progress and final evidence. `ControllerSpec` and `Agent` give every
operation as a function on the state; `Controller.ControllerJobState` and `Agent.AgentStateMachine`
are the classes that update that state in place, proved equal to those functions. `ControllerRuns`
holds what the controller keeps over arbitrary runs of arbitrary frames, and `ControllerHistory` tells
its whole state from the delivered frames alone. `Network` composes one
controller, any number of agents and one first-in-first-out queue per direction and agent, and
proves the start barrier and evidence integrity for every reachable state; `Provenance` follows every
sent frame and stored value back to the call it came from. `FaultFree` shows that
without cancellation or failure nobody ever rejects a frame, and that the run can always be
completed. `Cancellation` shows exactly when a cancelled run can still come to an end. `Shards` plans
the concurrency. `AggregateSpec`, `Aggregate` and `AggregateMeaning` merge the final evidence;
`AggregateReport` says what every field of the report is and `AggregateErrors` which error refuses a
cohort, both in terms of the evidence. `EndToEnd` connects planning, run and report.

**Measurement.** A struct of outcome counters is read as a multiset of outcomes and a histogram as
the multiset of its clamped samples, so that merging is addition. `Recorder` is the recorder of one
process with its sharded histograms; `RecorderRuns` lets any number of threads record through its
atomic steps in any interleaving; `DistributedMetrics` follows the numbers from those threads to the
merged report. `Metrics`, `RecorderSpec`, `Totals` and `Counters` hold the algebra.

**Texts.** `Json` prints canonical JSON, reads it back, and proves the text a faithful name for the
value; `Divergence` groups responses by it; `Redaction` hides sensitive arguments of recorded
requests. `Calendar` and `Timestamps` turn seconds into civil dates and printed times. `Framing`
cuts a byte stream into newline-delimited frames, and `Challenge` reads Bearer challenges.

**Tokens.** `TokenRefresh` hands out access tokens to concurrent callers with one guarded refresh.

Where the code does less than its documentation or a caller may expect, the code is modelled as it
is and the exact condition is among the results. The frame channel is described as reliable, but a
receive that a polling timeout abandons loses the bytes it had read (`Framing.PollHarmlessIff`). A
field with several Bearer challenges yields the parameters of all of them, not of the first
(`Challenge.FirstOnlyIff`, with an input in `Challenge.SecondBearerReturned`). Fields that RFC 9110
allows are read differently when a further parameter has white space before its equals sign (it and
all later parameters of the challenge are lost, or, if it is named `bearer`, the field is refused),
and are refused when a Bearer parameter has a bare tab, an escaped character beyond ASCII or a name
with other token characters than letters, digits, `-` and `_`, or when a scheme with other token
characters than these and `.` follows a Bearer challenge; `Challenge.PrintedIsReadIff` shows that
these are all such fields, for the grammar of sections 5.6 and 11.3 of RFC 9110, and further lemmas
give the inputs. A login or removal during a token refresh is overwritten when the refresh ends
(`TokenRefresh.ReplacesConsumedIff`, with the run in `TokenRefresh.OutsiderOverwritten`). An agent
that has finished can still report failure (`Agent.OnlyFailLeavesTerminal`); cancelled before the
controller has seen its finished frame, it has to, because nothing else ends the cancellation
(`Cancellation.CancelEndsIff`, with the run in `Cancellation.CancelTooLate`).

Every lemma turns Dafny's automatic induction off: each proof is the one written down.

## Model

| member | source | states |
|---|---|---|
| `Controller.ControllerJobState.New` | crates/distributed/src/state.rs:56-92 | building a job from prepare frames accepts or rejects, with the same first error, exactly as inserting them from left to right; the new object is in the initial state |
| `Controller.ControllerJobState.Accept` | crates/distributed/src/state.rs:106-223 | the reply and the whole new state after one frame, in every phase and for every frame; every other agent and every unlisted field stays |
| `Controller.ControllerJobState.AcceptReady` | crates/distributed/src/state.rs:126-170 | readiness branch: signature stored by the first full report, compared by later ones; a short or conflicting report fails the agent |
| `Controller.ControllerJobState.StartAll` | crates/distributed/src/state.rs:233-254 | refuses and changes nothing unless all are ready; otherwise every agent runs and the i-th frame is the start frame, addressed to the i-th name in ascending order |
| `Controller.ControllerJobState.CancelAll` | crates/distributed/src/state.rs:258-288 | every non-terminal agent is cancelled or cancelling; the i-th frame is the cancellation, addressed to the i-th, in ascending order, of exactly the live agents that know the job id |
| `Controller.ControllerJobState.FinalEvidence` | crates/distributed/src/state.rs:321-331 | succeeds exactly when every agent has final evidence, then lists it in ascending name order; otherwise names the agent without it before which every smaller name has it |
| `Controller.CancelTargetsMeaning` | crates/distributed/src/state.rs:259-286 | the addressees of a cancellation are exactly the live, greeted agents, in the order of the inventory |
| `ControllerRuns.EnrolSucceedsIff` | crates/distributed/src/state.rs:56-92 | a cohort is accepted if and only if all frames share the job id and no two name the same agent |
| `ControllerRuns.RefusedCohort` | crates/distributed/src/state.rs:56-92 | no frame at all, or the first frame of another job or of a name seen before, is what a cohort is refused for |
| `ControllerRuns.NewSlots` | crates/distributed/src/state.rs:56-92 | every agent starts out waited for, with its own prepare frame and nothing stored |
| `ControllerRuns.NewJobInvariant` | crates/distributed/src/state.rs:56-92 | a new job satisfies the invariant, has one slot per frame and waits for every greeting |
| `ControllerRuns.AcceptedIff` | crates/distributed/src/state.rs:111-222 | a frame is accepted if and only if its kind fits the phase and its job id, identity and content checks pass; a cancelling agent can only acknowledge or fail |
| `ControllerRuns.MessageKeeps` | crates/distributed/src/state.rs:118-222 | one frame never lowers a phase, never touches a terminal slot or final evidence, never replaces a stored signature, and a refused frame changes nothing unless it is a refused readiness report |
| `ControllerRuns.DeliveryIsLocal` | crates/distributed/src/state.rs:114-222 | a frame of one agent leaves every other agent as it was |
| `ControllerRuns.ApplyInvariant` | crates/distributed/src/state.rs:106-288 | frames, starts and cancellations, in any state, keep the invariant, the cohort, the signature and every slot's history |
| `ControllerRuns.RunKeeps` | crates/distributed/src/state.rs:106-288 | the same over every finite run of arbitrary frames, starts and cancellations |
| `ControllerRuns.LaterKeeps` | crates/distributed/src/state.rs:106-288 | nothing after any point of a run undoes a signature, a terminal phase or final evidence reached there |
| `ControllerRuns.VerdictsStay` | crates/distributed/src/state.rs:291-307 | once the cohort is terminal it stays so, every agent in the phase it had; once an agent failed, a failure stays on record |
| `ControllerRuns.ReadyMeansReported` | crates/distributed/src/state.rs:126-170 | in every reachable state an agent that is ready, running or finished has delivered a full readiness report for its shard under exactly the stored signature |
| `ControllerRuns.FinalMeansDelivered` | crates/distributed/src/state.rs:192-198 | stored final evidence is what some delivered finished frame of that agent and job carried |
| `ControllerRuns.ReleasedAtMostOnce` | crates/distributed/src/state.rs:226-288 | in a run the start gate opens at most once, and never after a cancellation |
| `ControllerRuns.PhaseChangesBounded` | crates/distributed/src/state.rs:118-288 | however long the run, phases change at most five times per agent |
| `ControllerRuns.LatestIsBest` | crates/distributed/src/state.rs:171-182 | the stored checkpoint is the best of those accepted so far |
| `ControllerRuns.BestIsHighest` | crates/distributed/src/state.rs:174-180 | best means: one of the accepted checkpoints, with the highest sequence |
| `ControllerRuns.ProgressIgnoresDeliveryOrder` | crates/distributed/src/state.rs:171-182 | two runs that accept the same checkpoints, in any order and any number of times, store the same one |
| `ControllerRuns.LatestEvidenceIs` | crates/distributed/src/state.rs:310-316 | in every reachable state the latest evidence is what the agent finished with, and before that the evidence of its highest accepted checkpoint |
| `ControllerRuns.FinalEvidenceIffAllFinished` | crates/distributed/src/state.rs:321-331 | in every reachable state all final evidence is present if and only if every agent finished, and it names its own agent |
| `ControllerHistory.PhaseAfter` | crates/distributed/src/state.rs:118-288 | the phase after one operation, told by the delivered frame alone: only a greeting, a report, a finished, failed or cancelled frame that fits moves it, each to its own phase; a short or conflicting report fails the agent |
| `ControllerHistory.StoredAfter` | crates/distributed/src/state.rs:118-222 | what one operation stores: a running agent's own evidence under a strictly higher sequence, final evidence, or the failed frame, and nothing else |
| `ControllerHistory.SignatureAfter` | crates/distributed/src/state.rs:126-170 | the cohort signature is that of the first full report and is stored by nothing else |
| `ControllerHistory.AnswerIs` | crates/distributed/src/state.rs:106-223 | the answer to every frame: the agent's own prepare frame to a greeting, nothing to any other that fits, and otherwise the first reason that applies |
| `ControllerHistory.EndsIff` | crates/distributed/src/state.rs:118-288 | in every state of every run an agent has failed if and only if some delivered frame was a failed frame of its job while it was not over, or a short or conflicting readiness report; it is cancelled if and only if it acknowledged or was given up before its greeting; it has finished if and only if it delivered its own final evidence while running |
| `ControllerHistory.FailureIsHeld` | crates/distributed/src/state.rs:208-216 | over every run the stored failure is exactly the failed frame that was delivered, and there is none unless one was |
| `ControllerHistory.FailureSeenIff` | crates/distributed/src/state.rs:297-307 | over every run a failure is reported if and only if some agent failed or misreported |
| `ControllerHistory.OverIff` | crates/distributed/src/state.rs:291-296 | over every run the cohort is terminal if and only if each agent failed, finished or was cancelled in that sense |
| `Agent.AgentStateMachine.Accept` | crates/distributed/src/state.rs:397-446 | the directive or error and the whole new state for every controller frame in every phase |
| `Agent.AgentStateMachine.BecomeReady` | crates/distributed/src/state.rs:449-461 | reporting ready: phase, job and name checks in order, then the frame and the new phase |
| `Agent.AgentStateMachine.Complete` | crates/distributed/src/state.rs:497-506 | finishing: evidence under the bound name, final frame, new phase |
| `Agent.AgentStateMachine.GiveUp` | crates/distributed/src/state.rs:509-523 | failing needs a job but no phase |
| `Agent.AgentStateMachine.Acknowledge` | crates/distributed/src/state.rs:526-534 | acknowledging a cancellation only while cancelling |
| `Agent.FrameMeans` | crates/distributed/src/state.rs:397-446 | a frame of the controller becomes a directive that carries it in exactly the phases that await it and for the bound job; only a prepare frame for the pinned name binds; every refusal names its reason |
| `Agent.ReadyMeans` | crates/distributed/src/state.rs:449-461 | a report is sent as it is if and only if the agent is preparing and the report has its job and name; otherwise nothing changes and the first reason is given |
| `Agent.EvidenceMeans` | crates/distributed/src/state.rs:464-506 | checkpoints and the final report carry the caller's sequence and evidence under the bound job if and only if the agent runs and the evidence names it twice |
| `Agent.HeartbeatMeans` | crates/distributed/src/state.rs:480-494 | a heartbeat carries the caller's sequence and is possible from preparation to the end of the run |
| `Agent.EndMeans` | crates/distributed/src/state.rs:509-534 | a failed frame carries the caller's code, message and verdict, an acknowledgement the caller's reason |
| `Agent.AgentKeepsBinding` | crates/distributed/src/state.rs:397-570 | no call unbinds an agent; job and name change only when the first prepare frame is accepted, and ready, finish, fail and acknowledge leave both as they are |
| `Agent.OnlyFailLeavesTerminal` | crates/distributed/src/state.rs:509-523 | an agent's terminal phases are not absorbing: every call leaves them alone except failing, which leaves them exactly when the agent had not failed already |
| `Network.UtteranceIsProper` | crates/distributed/src/state.rs:449-534 | whatever an agent says (ready, progress, heartbeat, finished, failed, cancelled) carries its own job and name; it says ready and finished only in the right order |
| `Network.ControllerTakesKeepsLink` | crates/distributed/src/state.rs:106-223 | taking the oldest frame of a link keeps everything known of controller phase, agent phase and the frames in flight |
| `Network.StepKeepsSafe` | crates/distributed/src/state.rs:106-534 | every action of the composed system keeps the joint invariant |
| `Network.RunKeepsSafe` | crates/distributed/src/state.rs:106-534 | the joint invariant of controller, agents and queues holds in every reachable state, failures and cancellations included |
| `Network.StartBarrier` | crates/distributed/src/state.rs:126-170 | in every reachable state, if any agent runs or has a start frame in flight, every agent of the cohort has sent a report with all its sessions live, all under one signature |
| `Network.EvidenceIntegrity` | crates/distributed/src/state.rs:192-198 | the controller's final evidence of an agent is what that agent itself put into its finished frame; an agent reports ready and finishes at most once |
| `Network.NothingMisaddressed` | crates/distributed/src/state.rs:111-148 | whatever fails or is cancelled, no agent refuses a queued frame for a wrong version, job or name, and the controller refuses one for a wrong version, job, agent or evidence owner if and only if it is a greeting pinned to another name while one is awaited |
| `Provenance.NothingInvented` | crates/distributed/src/state.rs:106-534 | in every reachable state, whatever an agent has sent, a start or cancellation in flight, and whatever the controller has stored as progress, result or failure stems from one call with exactly those arguments |
| `FaultFree.StepInStep` | crates/distributed/src/state.rs:106-534 | every healthy action keeps controller, agent and both queues of every link in lock-step |
| `FaultFree.NothingRejected` | crates/distributed/src/state.rs:106-223 | in every run without cancellation or failure, with capable greetings and full readiness, the head of every queue is accepted by its receiver, on both sides |
| `FaultFree.AlwaysCompletable` | crates/distributed/src/state.rs:226-300 | no deadlock: every such run can be continued, healthily, until every agent has finished |
| `Cancellation.RunKeepsClosing` | crates/distributed/src/state.rs:106-534 | every run keeps what is in flight in line with the end of each link: an unaware agent of a cancelled slot has a cancel frame waiting, and a failure or acknowledgement in flight is the last word of its agent |
| `Cancellation.CancelledEndsIff` | crates/distributed/src/state.rs:258-300 | in every reachable cancelled state, the run can be continued without any agent failing until the cohort is terminal if and only if no agent that still has to acknowledge has already finished |
| `Cancellation.CancelEndsIff` | crates/distributed/src/state.rs:258-300 | seen before the call: cancelling leaves such a run if and only if the controller has seen the end of every agent that has finished |
| `Cancellation.AlwaysEnds` | crates/distributed/src/state.rs:258-300 | with failures allowed, every reachable state can be continued to a terminal cohort |
| `Cancellation.CancelTooLate` | crates/distributed/src/state.rs:258-288 | a run in which it happens: the finished frame is in flight when the controller cancels, and no continuation without a failure ends it |
| `Cancellation.BothRefuse` | crates/distributed/src/state.rs:118-222 | on such a link the controller refuses the finished frame and the agent the cancel frame, and neither changes state |
| `Shards.PlanShards` | crates/distributed/src/shard.rs:42-82 | succeeds exactly on a usable inventory with enough concurrency, then gives one shard per name in ascending order; every error case with its value |
| `Shards.NoProblemIff` | crates/distributed/src/shard.rs:57-65 | validation passes if and only if every name is portable and no name repeats |
| `Shards.RefusedName` | crates/distributed/src/shard.rs:57-65 | an inventory is refused with its first name that is not one to sixty-four portable characters or was there before, portability first |
| `Shards.SharesConserve` | crates/distributed/src/shard.rs:67-81 | shares add up to the global concurrency, none is empty, any two differ by at most one and earlier names get the larger |
| `Shards.PlanIgnoresOrder` | crates/distributed/src/shard.rs:37-82 | inventories with the same names in any order have the same plan |
| `Shards.SeedsDiffer` | crates/distributed/src/protocol.rs:261-269 | no two shards of a plan share a random seed, and every seed fits 64 bits |
| `Aggregate.AggregateEvidence` | crates/distributed/src/aggregate.rs:256-378 | the loop over the cohort returns exactly the step-by-step result, with the same first error |
| `Aggregate.DecodeValidated` | crates/distributed/src/aggregate.rs:380-401 | decoding checks, overflow check and count check of one scope, in order |
| `Aggregate.MergeAgentTools` | crates/distributed/src/aggregate.rs:330-346 | the per-tool part of one agent, tool by tool in ascending order |
| `Counters.AddFieldsMeaning` | crates/distributed/src/aggregate.rs:500-521 | checked addition of a struct succeeds if and only if every field fits, and then adds every field |
| `Counters.TotalFieldsMeaning` | crates/distributed/src/aggregate.rs:478-498 | the checked total succeeds if and only if the sum fits |
| `Counters.SumIsSize` | crates/distributed/src/aggregate.rs:478-498 | visiting every counter once adds up to the number of calls counted |
| `AggregateMeaning.ValidatedIff` | crates/distributed/src/aggregate.rs:380-401 | a scope is accepted if and only if it decodes, declares its size and has one sample per success, hang and deadlock |
| `AggregateMeaning.AddOutcomesIff` | crates/distributed/src/aggregate.rs:500-521 | outcome counters merge if and only if all eleven sums fit |
| `AggregateMeaning.AddScenarioIff` | crates/distributed/src/aggregate.rs:523-557 | scenario counters merge if and only if all eight sums fit their 32 or 64 bits |
| `AggregateMeaning.LoopIff` | crates/distributed/src/aggregate.rs:277-347 | the loop gets through exactly the cohorts that satisfy every order-free condition, and its accumulators then hold the order-free total |
| `AggregateMeaning.AggregateIff` | crates/distributed/src/aggregate.rs:256-378 | aggregation succeeds if and only if the cohort is acceptable, and then reports the order-free total of the evidence |
| `AggregateMeaning.AggregateIgnoresOrder` | crates/distributed/src/aggregate.rs:256-378 | a permutation of the evidence is accepted if and only if the original is; both reports agree in everything but the order of notes and hang durations |
| `AggregateMeaning.ReportBalanced` | crates/distributed/src/aggregate.rs:392-399 | in every report, overall and per tool, there is one latency sample per success, hang and deadlock |
| `AggregateReport.ReportNumbers` | crates/distributed/src/aggregate.rs:312-378 | sessions, calls by outcome, request total, successes, scenario counters and the number of samples at each latency are the sums over the evidence |
| `AggregateReport.ReportTools` | crates/distributed/src/aggregate.rs:329-365 | the same for each tool, and a tool is reported if and only if some agent reported it |
| `AggregateReport.ReportTimes` | crates/distributed/src/aggregate.rs:312-374 | the elapsed time is that of some agent and at least that of every agent; the start skew is the difference of two start delays and at least every such difference |
| `AggregateReport.ReportLists` | crates/distributed/src/aggregate.rs:318-378 | names ascend, notes stand behind their agent's name and hangs in the order of the evidence, and protocol version and inventory are everyone's |
| `AggregateErrors.AggregateErrorIs` | crates/distributed/src/aggregate.rs:256-556 | for every cohort whether it is refused and with which error: nobody, too many agents, the first check that the first faulty agent fails after those before it, or a total that does not fit or took no time |
| `Totals.FoldPermutes` | crates/distributed/src/aggregate.rs:277-347 | the total of a cohort does not depend on the order of its evidence |
| `EndToEnd.PlanMakesNames` | crates/distributed/src/shard.rs:57-82 | every inventory that can be planned yields as many ascending names as it has entries |
| `EndToEnd.PlannedJob` | crates/mcp-loadtest-cli/src/distributed/controller.rs:56-77 | the job built from a plan has exactly the planned names, each with its planned shard |
| `EndToEnd.WorkConserved` | crates/distributed/src/protocol.rs:261-269 | the concurrencies inside the plans of the prepare frames add up to the global concurrency and each equals its shard's share; scenario, duration and patterns are the plan's; the seed gives the plan's seed back when combined with the index, and is the plan's for index 0 |
| `EndToEnd.WorkReceived` | crates/mcp-loadtest-cli/src/distributed/controller.rs:56-77 | in every reachable state of a planned run, a prepare frame that waits for an agent is the one planned for it, with exactly that part of the plan |
| `EndToEnd.LiveSessionsTotal` | crates/distributed/src/state.rs:126-170 | behind an open start gate of a planned run the sessions reported live add up to exactly the planned global concurrency |
| `EndToEnd.EchoedPlanIsAccepted` | crates/distributed/src/aggregate.rs:277-311 | evidence that echoes the plan passes every identity check, so that it aggregates if and only if its scopes and totals do, to the planned concurrency under the planned names |
| `EndToEnd.AcceptedIndicesAreComplete` | crates/distributed/src/aggregate.rs:287-295 | conversely, evidence that aggregates has shard indices exactly 0 to n-1 |
| `EndToEnd.PlannedRunReports` | crates/mcp-loadtest-cli/src/distributed/controller.rs:56-120 | plan, protocol run and report: when all agents finish with echoing evidence, what the controller hands over passes every identity check, aggregates if and only if its scopes and totals do, and accounts for the planned names and concurrency |
| `EndToEnd.PlannedRunIsReported` | crates/distributed/src/aggregate.rs:256-378 | when that evidence reports each agent's own calls, the report of the planned run exists if and only if the calls and scenario counters fit their widths and somebody measured for a while, and it is the one a single recorder of all calls would give |
| `Recorder.OutcomeCounters.Bump` | crates/core/src/metrics/throughput.rs:33-50 | exactly the counter of the outcome grows, by one |
| `Recorder.OutcomeCounters.Total` | crates/core/src/metrics/throughput.rs:89-101 | the sum of the counters is the number of calls recorded |
| `Recorder.ShardedHistogram.Record` | crates/core/src/metrics/histogram.rs:56-66 | whatever shard is selected, the whole histogram gains exactly the clamped value |
| `Recorder.ShardedHistogram.Merged` | crates/core/src/metrics/histogram.rs:69-82 | merging the shards gives all samples of all shards |
| `Recorder.Recorder.Record` | crates/core/src/metrics/mod.rs:101-109 | the recorder gains exactly this call, globally; the tool map is untouched |
| `Recorder.Recorder.EnterTool` | crates/core/src/metrics/mod.rs:134-158 | an entry is created the first time a tool is seen, empty, and never replaced |
| `Recorder.Recorder.RecordTool` | crates/core/src/metrics/mod.rs:126-165 | the recorder gains exactly this call, globally and under its tool; no other entry changes or is replaced |
| `Recorder.Recorder.Snapshot` | crates/core/src/metrics/mod.rs:217-262 | the snapshot reports all samples, every counter, the number of calls, and successes plus expected rejections |
| `Recorder.Recorder.ToolHistogram` | crates/core/src/metrics/mod.rs:203-211 | the histogram of a tool holds all samples of that tool |
| `RecorderSpec.SummaryConcat` | crates/core/src/metrics/mod.rs:101-165 | recording two lists of calls separately and merging is recording them together |
| `RecorderSpec.SummaryIgnoresOrder` | crates/core/src/metrics/mod.rs:101-165 | the order in which calls are recorded leaves no trace |
| `RecorderSpec.SummaryBalanced` | crates/core/src/metrics/types.rs:51-56 | overall and per tool there is one sample per success, hang and deadlock |
| `RecorderSpec.SummaryTools` | crates/core/src/metrics/mod.rs:170-178 | a tool has an entry if and only if some call named it |
| `RecorderSpec.SummaryMeans` | crates/core/src/metrics/mod.rs:101-165 | a summary counts each call under its outcome, holds the times of successes, hangs and deadlocks cut to between a microsecond and an hour, and gives each tool the same of the calls that named it |
| `RecorderRuns.TakeAccounts` | crates/core/src/metrics/mod.rs:101-165 | every atomic step moves exactly what it records from what its thread owes into the recorder |
| `RecorderRuns.AlwaysAccounted` | crates/core/src/metrics/mod.rs:126-165 | under every schedule of the atomic steps, what the recorder shows plus what threads still owe is the summary of all calls begun |
| `RecorderRuns.QuiescentIsExact` | crates/core/src/metrics/mod.rs:126-165 | once no thread is inside a call, the shared recorder equals one recorder fed all calls in any order |
| `RecorderRuns.EntriesStay` | crates/core/src/metrics/mod.rs:142-157 | no schedule loses or replaces a tool's entry or takes a count back |
| `RecorderRuns.HistogramNeverAhead` | crates/core/src/metrics/mod.rs:101-109 | at every step a histogram holds one sample per success, hang and deadlock counted, less the threads caught in between, overall and per tool |
| `RecorderRuns.TotalsGap` | crates/core/src/metrics/mod.rs:126-165 | at every step the global total exceeds the sum of the totals under the tools in the map by exactly the tool calls in flight and the plain calls counted |
| `DistributedMetrics.ReportsAreSound` | crates/mcp-loadtest-cli/src/distributed/worker.rs:276-314 | evidence read from a finished recorder passes every check on its scopes |
| `DistributedMetrics.ReportExistsIff` | crates/distributed/src/aggregate.rs:256-378 | evidence of recorders aggregates if and only if there is an agent, the identities match, all calls and the scenario counters fit their widths, and somebody measured for a while if there were calls |
| `DistributedMetrics.DistributedEqualsLocal` | crates/distributed/src/aggregate.rs:277-378 | however calls are split over agents, that report has exactly the samples, counters and tools of one recorder fed every call |
| `DistributedMetrics.NeverMismatched` | crates/distributed/src/aggregate.rs:392-399 | such evidence never raises the latency/outcome mismatch error |
| `DistributedMetrics.FromThreadsToReport` | crates/mcp-loadtest-cli/src/distributed/worker.rs:276-314 | from the threads of every agent, under every schedule, to the merged report: when it exists, and what it holds |
| `Json.EscapeReads` | crates/engine/src/race_detector.rs:115-127 | every escape the printer makes stands, in section 7 of RFC 8259, for the character it escapes |
| `Json.EscapedMeans` | crates/engine/src/race_detector.rs:115-127 | quote and backslash behind a backslash, five control characters by letter, the others as four lower-case hexadecimal digits, every other character as it is |
| `Json.StringReads` | crates/engine/src/race_detector.rs:115-127 | a printed string reads back as the string, and the reader stops where it ends, whatever follows |
| `Json.NumberReads` | crates/engine/src/race_detector.rs:114 | number tokens are not prefix-free: what can follow a value is what delimits them |
| `Json.CanonReads` | crates/engine/src/race_detector.rs:99-161 | the canonical text is a JSON document for the value: a reader gets the value back and stops exactly at its end |
| `Json.UniqueReading` | crates/engine/src/race_detector.rs:110-161 | in front of anything that can follow a value, two canonical texts agree only when they name the same value |
| `Json.CanonFaithful` | crates/engine/src/race_detector.rs:104-161 | two values have the same canonical text if and only if they are equal, objects read as finite maps and numbers by their text |
| `Json.WriteCanonical` | crates/engine/src/race_detector.rs:110-161 | the printer appends exactly the canonical text to its buffer |
| `Json.Canonicalize` | crates/engine/src/race_detector.rs:104-108 | the text of a value is its canonical text |
| `Divergence.Analyze` | crates/engine/src/race_detector.rs:69-97 | one sample per distinct text with its number of occurrences, in reporting order; divergence means more than one |
| `Divergence.SortSamples` | crates/engine/src/race_detector.rs:80-85 | lists exactly the groups, more frequent first, ties in ascending order of text |
| `Divergence.DivergedIff` | crates/engine/src/race_detector.rs:87-89 | divergence is reported if and only if two of the responses differ as JSON values |
| `Divergence.GroupPerValue` | crates/engine/src/race_detector.rs:74-88 | there are as many samples as there are different values among the responses |
| `Divergence.CountsAddUp` | crates/engine/src/race_detector.rs:74-83 | the sample counts add up to the number of responses |
| `Divergence.ReportOrder` | crates/engine/src/race_detector.rs:80-85 | samples are listed by falling count, those of one count by ascending text |
| `Divergence.TextCounts` | crates/engine/src/race_detector.rs:74-78 | a text occurs exactly as often as the value it names |
| `Divergence.ReportIgnoresOrder` | crates/engine/src/race_detector.rs:69-97 | responses in any order give the same report |
| `Redaction.RedactValue` | crates/core/src/trace/format.rs:158-179 | rewrites to the redacted value, and tells whether any sensitive key is present |
| `Redaction.SensitiveIff` | crates/core/src/trace/format.rs:26-33 | a key is sensitive if and only if secret, token, password, api_key, apikey or authorization stands in it somewhere, each letter small or capital |
| `Redaction.RedactedEntries` | crates/core/src/trace/format.rs:158-184 | the value under such a key becomes the text [REDACTED], under any other key it is redacted inside, and nothing else changes |
| `Redaction.RedactedEqualIff` | crates/core/src/trace/format.rs:158-179 | two values redact to the same if and only if they agree at every place that no sensitive key hides, at any depth |
| `Redaction.SecretsGone` | crates/core/src/trace/format.rs:162-165 | under a sensitive key, wherever it is visible from, only the marker is left |
| `Redaction.RedactedTwice` | crates/core/src/trace/format.rs:158-179 | redacting twice is redacting once |
| `Redaction.CleanIsKept` | crates/core/src/trace/format.rs:158-179 | a value without a sensitive key is left as it is |
| `Redaction.HasSecretIff` | crates/core/src/trace/format.rs:158-183 | a change is reported if and only if some path through visible keys ends at a sensitive key |
| `Redaction.RedactBody` | crates/core/src/trace/format.rs:138-154 | writes, whatever the parser, exactly the text whose meaning `RewrittenMeans` states |
| `Redaction.RewrittenMeans` | crates/core/src/trace/format.rs:133-154 | for any parser that reads canonical text back within its depth, but for what it makes of numbers: a body without arguments or without a sensitive key in them is written byte for byte; any other is written as a text that parses to the same document with redacted arguments and its numbers read once more |
| `Redaction.ArgumentsAt` | crates/core/src/trace/format.rs:138-150 | the arguments are what the path params, arguments leads to |
| `Redaction.RewrittenTwiceIff` | crates/core/src/trace/format.rs:138-154 | writing a rewritten body again leaves it as it is if and only if the parser reads every number left in it as it is written |
| `Redaction.ReaderReads` | crates/core/src/trace/format.rs:138-150 | the hypothesis on the parser can be met, for every depth and every treatment of numbers that accepts again what it has read |
| `Redaction.BodiesEqualIff` | crates/core/src/trace/format.rs:138-154 | two rewritten bodies are the same text if and only if they agree outside the arguments and visibly inside them |
| `Calendar.StepsInvert` | crates/core/src/report.rs:282-309 | in the naive calendar the next and the previous day undo each other and stay valid |
| `Calendar.YearRecovered` | crates/core/src/report.rs:295-299 | no unsigned subtraction underflows, and the corrected quotient is the year of the era |
| `Calendar.YearOfEra` | crates/core/src/report.rs:295-299 | the year of the era is the one whose days include the given day |
| `Calendar.NextDayNumber` | crates/core/src/report.rs:287-309 | stepping one day adds one to the day number, across month, leap-year, century and era ends |
| `Calendar.CivilOfDayNumber` | crates/core/src/report.rs:293-304 | the closed form inverts the day number of every valid date |
| `Calendar.CivilIsNaive` | crates/core/src/report.rs:287-309 | for every day, negative ones included, the closed form is the date found by counting day by day from 1970-01-01 |
| `Calendar.EpochMeaning` | crates/core/src/report.rs:287-309 | the broken-down time is the counted date and the clock of that day; its year is true, and it converts back to the same second, if and only if the year fits 32 bits |
| `Calendar.EpochInjective` | crates/core/src/report.rs:287-309 | while years fit, different seconds have different broken-down times |
| `Timestamps.FormatOrder` | crates/core/src/report.rs:278-279 | printed texts compare as their fields, from the year down |
| `Timestamps.PaddedMeans` | crates/core/src/report.rs:278-279 | a printed field, of any size and sign, is its sign and decimal digits, filled with zeros only up to the width |
| `Timestamps.PrintedReadsBack` | crates/core/src/report.rs:272-280 | a printed timestamp, read as a date and a clock time, is the second it was printed from |
| `Timestamps.PrintedOrder` | crates/core/src/report.rs:272-280 | in years 0 to 9999 every output has twenty characters in the fixed form, and one precedes another if and only if its second does |
| `Framing.Receiver.Receive` | crates/distributed/src/channel.rs:92-138 | the result is that of the whole remaining stream however it is cut into pieces; the buffer never outgrows the bound; a frame leaves what follows its line |
| `Framing.LineMeans` | crates/distributed/src/channel.rs:92-138 | what one line is received as: the bound counts every byte before the line feed, one carriage return is dropped, and an empty line, one that does not decode and one of another protocol version are errors |
| `Framing.NoLineMeans` | crates/distributed/src/channel.rs:92-104 | a stream without a line feed ends cleanly if it is empty and in the middle of a line otherwise, unless it outgrows the bound |
| `Framing.Sender.Send` | crates/distributed/src/channel.rs:147-164 | a frame is written as its encoding and a newline, or refused with nothing written |
| `Framing.SentMeans` | crates/distributed/src/channel.rs:147-164 | exactly the frames of this protocol version within the bound are written, as their encoding and one line feed |
| `Framing.SendFrames` | crates/distributed/src/channel.rs:147-164 | sending a list succeeds if and only if every frame is within version and bound, and writes their lines in order |
| `Framing.ReceiveAll` | crates/distributed/src/channel.rs:92-138 | the frames up to the clean end or the first error are those of the whole stream, for every cutting |
| `Framing.SentIsReceived` | crates/distributed/src/channel.rs:92-164 | what was sent within the bound is received as exactly those frames in order, then a clean end |
| `Framing.ReturnCounts` | crates/distributed/src/channel.rs:106-124 | a carriage return before the newline is forgiven, but a frame of exactly the bound is then refused |
| `Framing.Poll` | crates/mcp-loadtest-cli/src/distributed/controller.rs:303 | a receive abandoned by a timeout loses what it had read: the next one continues behind those bytes |
| `Framing.PollHarmlessIff` | crates/distributed/src/channel.rs:92-102 | polling again is as good as never having polled if and only if the abandoned poll had read nothing |
| `Challenge.SplitQuoted` | crates/auth/src/challenge.rs:95-121 | fails if and only if a quote or escape is left open, else gives the pieces between unquoted commas |
| `Challenge.PiecesRejoin` | crates/auth/src/challenge.rs:95-121 | the pieces rejoin to the input and none hides an unquoted comma |
| `Challenge.JoinedSplits` | crates/auth/src/challenge.rs:95-121 | pieces without unquoted commas, each with its quotes closed, come back exactly as they were joined |
| `Challenge.UnescapeQuoted` | crates/auth/src/challenge.rs:152-169 | removes each backslash, refuses control characters and escapes of non-ASCII |
| `Challenge.ClassesAre` | crates/auth/src/challenge.rs:80-169 | the character classes of the parser by code point |
| `Challenge.BearerParameters` | crates/auth/src/challenge.rs:48-78 | the loop computes the scan of all segments, with the first error |
| `Challenge.UnescapedRaw` | crates/auth/src/challenge.rs:152-169 | undoing the escapes of a printed value gives the value if and only if it has no bare control character and no backslash before a character beyond ASCII |
| `Challenge.BodyParses` | crates/auth/src/challenge.rs:123-150 | a printed parameter, token or quoted, with any white space around its equals sign, is parsed if and only if its name has only letters, digits, `-` and `_` and its value is readable; then name in lower case, value as meant |
| `Challenge.ParameterIff` | crates/auth/src/challenge.rs:123-169 | for every text, not only printed ones, and every name and value: the text is parsed to them if and only if it is, up to white space, a name of letters, digits, hyphens and underscores in any case, an equals sign, and the value bare or escaped between two quotes |
| `Challenge.FurtherParam` | crates/auth/src/challenge.rs:60-72 | the fate of a further parameter in every state of the scan: with white space before its equals sign it ends the challenge, or the field is refused if it is named `bearer`; without, it is read, refused or passed over |
| `Challenge.PrintedOutcome` | crates/auth/src/challenge.rs:48-169 | for every list of printed challenges, with quoted commas, escapes, any white space and blank elements: exactly when the field is refused, and exactly which parameters are returned otherwise |
| `Challenge.PrintedIsReadIff` | crates/auth/src/challenge.rs:48-169 | exactly the parameters of the Bearer challenges are returned, in order and with their values, if and only if they are all sound, no further one has white space before its equals sign, no other challenge has a further parameter named `bearer` with it, and no unexpected scheme follows a Bearer challenge |
| `Challenge.FirstOnlyIff` | crates/auth/src/challenge.rs:48-78 | the documentation speaks of the first Bearer challenge; for every printed field, what the parser returns is what it reads of the first one if and only if it does not refuse the field and the other Bearer challenges have no parameters |
| `Challenge.SecondBearerReturned` | crates/auth/src/challenge.rs:48-78 | an input: the parameters of two Bearer challenges are returned together |
| `Challenge.LaterParametersLost` | crates/auth/src/challenge.rs:60-68 | an input: white space before the second equals sign loses that parameter and the third |
| `Challenge.NamedLikeTheScheme` | crates/auth/src/challenge.rs:60-68 | inputs: a further parameter named `bearer` with that white space has the field refused, with or without a Bearer challenge |
| `Challenge.UnsoundRefused` | crates/auth/src/challenge.rs:123-169 | inputs: a bare tab, an escaped character beyond ASCII and a dotted name are refused |
| `Challenge.UnknownRefused` | crates/auth/src/challenge.rs:71-73 | an input: an unexpected scheme after a Bearer challenge is refused |
| `TokenRefresh.AuthorizationHeader` | crates/auth/src/provider.rs:121-156 | the reply and the whole store after one call, whatever others make of the store while it waits for the guard |
| `TokenRefresh.FirstLookMeans` | crates/auth/src/provider.rs:121-136 | at the first look a set with no end or more than 30000 ms left is answered with its access token and stays; any other is never handed out, and removed without a refresh token |
| `TokenRefresh.SecondLookMeans` | crates/auth/src/provider.rs:137-156 | under the guard the same, but what is about to end is replaced by a usable answer of the endpoint and kept otherwise |
| `TokenRefresh.UndisturbedRun` | crates/auth/src/provider.rs:121-156 | the atomic steps of one undisturbed caller amount to the two looks at the store |
| `TokenRefresh.FirstDecides` | crates/auth/src/provider.rs:121-136 | in every state of the many-caller system a caller decides by the set it finds exactly as the first look says |
| `TokenRefresh.SecondDecides` | crates/auth/src/provider.rs:137-156 | and under the guard exactly as the second look says, at once or when the endpoint answers |
| `TokenRefresh.AlwaysSafe` | crates/auth/src/provider.rs:137-155 | under every interleaving of callers, logins, removals and dropped calls the guard is held by exactly the caller inside, and a refresh in flight knows whether anyone wrote meanwhile |
| `TokenRefresh.SingleFlight` | crates/auth/src/provider.rs:137-155 | at most one refresh is ever in flight |
| `TokenRefresh.ReplacesConsumedIff` | crates/auth/src/provider.rs:144-154 | a finished refresh replaces exactly the set it consumed if and only if nobody wrote since its second look; a login or removal in between is overwritten |
| `TokenRefresh.OutsiderOverwritten` | crates/auth/src/provider.rs:144-154 | a run in which it happens, for every expiring set, good answer and login or removal: the refreshed set is in the store and the login or removal is undone |
| `TokenRefresh.RefreshedOnce` | crates/auth/src/provider.rs:121-156 | with callers only, every write is a refresh replacing the expiring set it consumed, no generation is consumed twice, and the removing branch is never reached |
| `TokenRefresh.RefreshTokenKept` | crates/auth/src/token.rs:323-351 | a refresh never loses the refresh token, whether or not the answer brings a new one |
| `TokenRefresh.NeverStale` | crates/auth/src/provider.rs:121-156 | under every interleaving each header ever handed out is that of a set with more than 30000 ms left at that caller's look at the store, or of one just received from the endpoint |
| `TokenRefresh.MemoryTokenStore.Put` | crates/auth/src/store.rs:79-84 | exactly the entry of this key is replaced |
| `TokenRefresh.MemoryTokenStore.Remove` | crates/auth/src/store.rs:86-91 | exactly the entry of this key goes |

## Left out

- Processes, SSH, HTTP and WebSocket transports, async timers and deadlines. A cancelling agent that neither acknowledges nor fails is left to the outer deadline of the controller, so it is proved when a cancellation can end, not that it does.
- The HDR histogram and base64 codecs: a payload stands for the value it decodes to, and an oversized payload or trailing bytes count as one that does not decode. Bucket rounding, percentiles, means and rates are floating-point work on the merged samples and are not modelled.
- The JSON codec of the wire frames: `Framing.SentIsReceived` assumes that decoding undoes encoding and that an encoded frame has no line break; I/O errors of the stream are not modelled.
- Parsing of JSON texts other than canonical ones: values are modelled after parsing, numbers by the text the printer gives them. `Redaction` takes the parser, its depth limit and what it makes of numbers as parameters; which number texts the parser changes is floating-point work and not modelled.
- Recorder.Recorder.Snapshot: does not model the latency percentiles, mean, minimum and maximum or the request rate, which are computed from the samples and counters it returns.
- Recorder.OutcomeCounters.Bump: does not model the wrap-around of a 64-bit counter after 2^64 calls; `DistributedMetrics` assumes fewer calls per agent.
- Recorder and RecorderRuns: poisoned locks, whose samples are dropped, are not modelled; the start instants kept for rates are not modelled.
- Recorder.Recorder.Record: one thread at a time in this form; `RecorderRuns` models the atomic steps of many threads on values.
- Divergence.SortSamples: the library sort is modelled as insertion; the order is total on distinct texts, so any sort gives the same list (`ReportIgnoresOrder`).
- Calendar.EpochMeaning: sub-second parts of a time, which are truncated before the conversion, are not modelled.
- Challenge.PrintedIsReadIff: a token68 is modelled after other schemes only, since no Bearer challenge has one.
- Challenge: the mapping of parameters to the challenge record, URL parsing, scope lists and error-code sanitizing.
- TokenRefresh: building and sending the token request, choice of the client authentication method, and overflow of the clock. Callers on other keys of the same provider only add waiting for the guard; two providers sharing one store do not share the guard.
- Network: the controller loop's own stopping rules and heartbeat deadlines; the model lets every frame be taken at any time.
- EndToEnd.PlannedRunReports, EndToEnd.PlannedRunIsReported: that evidence echoes the assigned shard and the ready signature is a hypothesis, because the controller checks only the names inside evidence.
- Load patterns and the remote target inside a plan are opaque texts; configuration validation, reports, thresholds, command line and rendering.
