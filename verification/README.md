# RedOps Eval: a verified model

This project models the logic of the RedOps evaluation platform in Dafny and proves properties of
it. `dafny verify dfyconfig.toml` checks everything. Source files are cited by their path in the
repository.

## What is modelled

**The agent loop and its record** (`AgentLoop`, `AgentLoopProperties`, `AgentLoopTotals`,
`AgentLoopAnswers`, `AgentLoopFailures`, `AgentLoopRecording`, `AgentLoopTranscript`, `AgentLoopNeutrality`,
`ToolExecution`, `TrajectoryRecorder`, `Trajectory`, `TrajectoryDict`). A provider and a set of tools are
arbitrary functions of how often they were called and with what; the cancel flag is an arbitrary
function of the instant at which it is read. A run is a sequence of small steps of a state machine
with a trace of checks, provider calls and tool executions. `Execute` is the loop itself, on an
object with the loop's local variables and with a recorder object, and is proved to end in exactly the
state of the machine's run. About all runs it is proved what the conversation looks like at every
provider call, how the executed calls relate to the requested ones and how they are answered, what the
budget bounds, what cancellation stops, why a run fails, that the recorded trajectory is a transcript of
the run and agrees with the returned result, and that recording does not change the run. Trajectory
metrics are specified as sums, one per column.

**The event stream** (`EventStream`). The generator prints frames in the format of sections 9.2.5 and
9.2.6 of the WHATWG HTML Standard; the client reads the single-`data:`-line subset of it from chunks,
with a carry-over buffer. The two agree under every way to cut the text and every truncation.

**Progress reconciliation** (`RunProgress`). Handlers turn cumulative snapshots, delivered more than
once and in any order, into increments on a run. The evaluation and the agent handler differ in names
only; one model stands for both.

**Stateful services** (`ApiKeys`, `ReportRefresh`, `EvaluationRuns`). Each is an object over a store,
proved to follow a state machine over requests, and each state machine has invariants and laws over
whole histories. A request that raises changes nothing.

**Analytics** (`Histogram`, `PassFail`, `Leaderboard`, `LeaderboardPlaces`, `Comparison`, `Costs`, `Latency`,
over `Grouping`, `Sorting` and `RunRows`). Floating-point values are reals before display rounding. The leaderboard, the
costs and the latency groups are sorted by rounded values, so there rounding is a parameter.

**The CI gate** (`Gate`) and **checkpoints** (`Checkpoints`).

## What the proofs say about the code

Some properties one would expect do not hold of the code. Each is stated with its exact condition and
with an input that shows it.

- Loop result and record differ in two cases. A response is counted but not recorded if and only if it
  requests a call whose arguments do not decode. A tool call is counted but not recorded if and only if
  validation raises on it, which it does when the tool is known and its arguments decode to a scalar, or to
  an array with an unhashable item that holds every required name (`AgentLoopRecording.RecordingAgrees`,
  `ToolExecution.ExecuteRaisesExactly`; `AgentLoopRecording.BothLossesOccur`).
- Recording is neutral exactly when all requested arguments decode
  (`AgentLoopNeutrality.RecordingIsNeutral`; `RecordingCanMatter`).
- The provider never sees which calls an assistant message requested, although the loop keeps them: two
  conversations are the same to it exactly when they differ in the calls at most
  (`AgentLoopProperties.ConversationsSentAlike`).
- A single snapshot can make `completed` overshoot the total it reports, exactly when more items newly
  failed than were newly processed (`RunProgress.ApplyReachesExactly`; `ApplyOvershoots`); over cumulative
  histories this cannot happen.
- Repeating a snapshot leaves the counters alone, but the average latency only when the snapshot has no
  latency, the run has no items, or the latency is at least the average it led to and exceeds it by no more
  than the number of items (`RunProgress.RepeatChangesNothingExactly`; `LatencyIsNotIdempotent`).
- The leaderboard is the top by rounded scores, and ties go to the model seen first: a model is shown
  exactly when fewer models are ahead of it in this sense than the limit allows
  (`LeaderboardPlaces.RankExactly`). By unrounded values it is the top exactly when of two models with
  equal rounded scores that the limit separates the one left off is not better
  (`LeaderboardPlaces.TrueTopExactly`; `DearerModelOnTop`).
- A threshold survives printing and parsing exactly when its metric is unambiguous in front of its
  operator (`Gate.ParseUndoesPrintExactly`; `Gate.MetricMisread`).

Two results hold for more inputs than the code produces. Event delivery is exact exactly when no event
type contains a newline followed by `data: ` (`EventStream.StreamDelivers`; `HiddenDelivers` shows one);
the types that are published are constants without newlines, so for them it is exact.
`next_checkpoint_target` is the next count with a checkpoint for every positive interval
(`Checkpoints.NextTargetIsNextDue`); evaluation limits reject any other
(backend/app/evaluation/domain/value_objects/evaluation_value_objects.py:66-68), and new agent runs use the
default of five (backend/app/agents/application/run_handlers.py:53-59).

## Assumptions

- Instants, elapsed times, generated ids, keys and hashes are parameters. New ids are fresh UUID texts.
  New API keys hash to values not in use. `hash` and `digest` are otherwise arbitrary functions; only
  the count of runs by distinct keys assumes that the keys used have different digests.
- `AgentLoopRecording.ExecuteRecorded` is the composition a caller makes of a new recorder, the loop and
  `build`; the activity that runs the loop passes no recorder (backend/app/agents/temporal/activities.py:389-391).
- The cancel flag is not assumed to be read atomically with the action behind the check. That is why one
  tool execution can still follow it.
- `float` accepts no text with `<`, `>`, `=` or `!` in it; which numbers it reads is a parameter.
- Between two polls of the gate at least some positive time passes; with a positive poll interval that is
  the interval. The code does not require the interval to be positive; with a negative one sleeping raises.
- The latest checkpoint of a run, an abstract operation in the source, is the one saved last.

## Model

| member | source | states |
|---|---|---|
| `AgentLoop.Execute` | backend/app/agents/runtime/agent_loop.py:90-320 | the loop ends in exactly the state, result and recording of the state machine's run, for every provider, every tool behaviour and every cancel flag, with or without a recorder |
| `AgentLoop.NextResponse` | backend/app/agents/runtime/agent_loop.py:130-235 | one turn of the loop up to the tools: a cancel check, a provider call with its bookkeeping, and a final answer or a new assistant message; the rest of the run is unchanged by it |
| `AgentLoop.RunCall` | backend/app/agents/runtime/agent_loop.py:237-286 | one requested call: budget step, execution, answer, cancel check; an exception or the flag ends the run as the state machine does |
| `AgentLoop.RunCalls` | backend/app/agents/runtime/agent_loop.py:237-286 | all calls of a response, in order, each counted once against the budget |
| `AgentLoop.Execution.RequestedCalls` | backend/app/agents/runtime/agent_loop.py:178-186 | the records of the requested calls, or the exception of the first whose arguments do not decode |
| `AgentLoop.Execution.Record` | backend/app/agents/runtime/agent_loop.py:178-199 | recording a response either raises and leaves the recorder as it was, or appends the record of that response |
| `AgentLoop.Execution.AskProvider` | backend/app/agents/runtime/agent_loop.py:149-199 | a provider call is counted, with its tokens and cost, before it is recorded |
| `AgentLoop.Execution.ExecuteCall` | backend/app/agents/runtime/agent_loop.py:241-247 | a call runs with the arguments it decodes to; arguments that are not JSON count as an empty object, and with those the execution never raises; any other exception of the decoder is raised |
| `AgentLoop.Execution.RunTool` | backend/app/agents/runtime/agent_loop.py:237-268 | a tool execution is counted before it starts, and recorded and answered only if it does not raise |
| `AgentLoop.Execution.IsCancelled` | backend/app/agents/runtime/agent_loop.py:132 | reads the cancel flag at one instant of the run |
| `AgentLoop.Execution.Cancel` | backend/app/agents/runtime/agent_loop.py:132-147 | a cancelled run has the counters reached so far and the recorder's status is set |
| `AgentLoop.Execution.Complete` | backend/app/agents/runtime/agent_loop.py:201-217 | a completed run returns the provider's last content, also recorded as final answer |
| `AgentLoop.Execution.ExhaustSteps` | backend/app/agents/runtime/agent_loop.py:288-302 | a spent budget ends the run unsuccessfully |
| `AgentLoop.Execution.Fail` | backend/app/agents/runtime/agent_loop.py:304-320 | any exception ends the run as failed, with its message in result and recording |
| `AgentLoopProperties.StepMoves` | backend/app/agents/runtime/agent_loop.py:130-320 | every step of the state machine is one of nine moves, whose effect on conversation, counters, trace and result is stated field by field, without the step function |
| `AgentLoopProperties.Invariant` | backend/app/agents/runtime/agent_loop.py:130 | every run ends (the budget left, then the pending calls, decrease) and keeps whatever every step keeps |
| `AgentLoopProperties.ConversationWellFormed` | backend/app/agents/runtime/agent_loop.py:130-286 | at every provider call of every run the provider is sent the system prompt, if any, the user message and then complete rounds in their roles, each an assistant message answered by one tool message per call with matching ids in order; at the end only calls not reached, and one that raised, are unanswered |
| `AgentLoopProperties.ExecutedIsPrefixOfRequested` | backend/app/agents/runtime/agent_loop.py:201-302 | the executed calls are a prefix of the requested ones, all of them when the run completed or spent its budget; steps = tool calls = executions |
| `AgentLoopProperties.BudgetBounds` | backend/app/agents/runtime/agent_loop.py:130-302 | at most max_steps provider calls; with a positive budget at most max_steps - 1 plus the largest batch of calls in steps; without one the run does nothing |
| `AgentLoopTotals.TotalsAreSums` | backend/app/agents/runtime/agent_loop.py:149-235 | in every run LLM calls, tokens and cost of the result are the sums over the provider's responses; the requested calls are theirs, in order, with none missing unless the run failed; every response but the last requests some, and a completed run returns the content of the last |
| `AgentLoopProperties.CallsAreNotSent` | backend/app/agents/runtime/agent_loop.py:350-373 | two messages reach the provider as the same one exactly when they differ in their calls at most |
| `AgentLoopProperties.ConversationsSentAlike` | backend/app/agents/runtime/agent_loop.py:151-164 | two conversations reach the provider as the same list if and only if they differ in the requested calls at most |
| `AgentLoopProperties.CancellationStops` | backend/app/agents/runtime/agent_loop.py:132-147 | once the flag is set no later provider call starts, at most one more tool runs, and the run is over within three events, cancelled unless an answer or an error comes first |
| `AgentLoopProperties.CancelledExactly` | backend/app/agents/runtime/agent_loop.py:270-286 | a run ends cancelled if and only if its last event is a check that found the flag set |
| `AgentLoopProperties.LostExactly` | backend/app/agents/runtime/agent_loop.py:178-186 | recording a response fails if and only if there is a recorder and some requested arguments do not decode |
| `AgentLoopAnswers.ExecutedAreAnswered` | backend/app/agents/runtime/agent_loop.py:237-268 | in every run the i-th executed call is answered, under its id, with the text its tool returned if the tool is known, the arguments are (or, when empty or malformed, stand for) an object with every required name and the function returns; otherwise with `Error: ` and the exact reason; only a last call on which validation raised or whose arguments cannot be read has no answer |
| `AgentLoopFailures.FailuresExplained` | backend/app/agents/runtime/agent_loop.py:149-186 | a provider is called only if it supports chat, or tools and there are some; the error of a failed run is that of the last thing it did: no chat support, the provider's error, the first undecodable arguments, or the tool that raised |
| `AgentLoopRecording.StepRecords` | backend/app/agents/runtime/agent_loop.py:178-258 | what each move adds to the recording: the response, the call and its answer as they were; and how the end of the run closes it |
| `AgentLoopRecording.RecordingAgrees` | backend/app/agents/runtime/agent_loop.py:169-320 | with a fresh recorder the trajectory has the loop's status, final response and error, and its metrics are the loop's totals less what was lost: a response, with its tokens, if and only if some response requests a call that does not decode, and a tool call if and only if validation raises on some executed call; each is then the last one; cost is recorded as zero |
| `AgentLoopTranscript.TrajectoryTranscribes` | backend/app/agents/runtime/agent_loop.py:178-258 | with a fresh recorder the i-th LLM record has the contents, tokens and decoded calls of the i-th response, the i-th tool record the arguments and the text of the i-th executed call as it was answered, and the history has the turn of every step |
| `AgentLoopRecording.ExecuteRecorded` | backend/app/agents/runtime/trajectory_recorder.py:235-254 | after the loop has run with a new recorder, the result it returned and the built trajectory, with its computed metrics, agree as `RecordingAgrees` says |
| `AgentLoopNeutrality.RecordingIsNeutral` | backend/app/agents/runtime/agent_loop.py:178-268 | a run with a recorder has the result of the run without one if and only if every requested call of the latter decodes; then messages and events agree too |
| `AgentLoopNeutrality.RunsCompare` | backend/app/agents/runtime/agent_loop.py:178-268 | from equal states both runs end alike, or the recorded one ends with fewer steps |
| `AgentLoopRecording.ResponseIsLost` | backend/app/agents/runtime/agent_loop.py:169-199 | when the first response requests arguments that do not decode, it and its tokens are counted and the trajectory has no step |
| `AgentLoopRecording.ToolCallIsLost` | backend/app/agents/runtime/agent_loop.py:237-258 | when the first response requests one call on which validation raises, the call is counted and not recorded |
| `AgentLoopRecording.BothLossesOccur` | backend/app/agents/runtime/agent_loop.py:169-258 | both happen: with arguments that are not JSON, and with arguments that are null |
| `AgentLoopNeutrality.RecordingMatters` | backend/app/agents/runtime/agent_loop.py:178-186 | when the first response requests arguments that do not decode, the results with and without a recorder differ |
| `AgentLoopNeutrality.RecordingCanMatter` | backend/app/agents/runtime/agent_loop.py:178-186 | such a run exists |
| `ToolExecution.FirstMissingMeaning` | backend/app/agents/domain/tool_execution.py:115-139 | validation raises exactly on a scalar when something is required, and accepts an object exactly when every required parameter is a key |
| `ToolExecution.ExecuteRaisesExactly` | backend/app/agents/domain/tool_execution.py:159-209 | executing a known tool raises in exactly two cases: its arguments are a scalar, or an array that holds every required name and an unhashable item; on an object it never raises |
| `ToolExecution.ExecuteSucceedsExactly` | backend/app/agents/domain/tool_execution.py:159-209 | an execution succeeds if and only if the tool is known, its arguments are an object with the required parameters and the function returns; its text is then the function's |
| `ToolExecution.ExecuteExactly` | backend/app/agents/domain/tool_execution.py:115-209 | an execution that does not raise returns the tool's text exactly when it runs and returns, and otherwise one of six errors, each with its condition: unknown tool, the first missing argument, no function, not a mapping, timed out, failed |
| `ToolExecution.ToolRegistry.Register` | backend/app/agents/domain/tool_execution.py:76-89 | both dictionaries gain the tool, or nothing changes when the name is taken or what comes with it is not callable |
| `ToolExecution.ToolRegistry.Unregister` | backend/app/agents/domain/tool_execution.py:91-94 | both dictionaries lose the tool and nothing else |
| `ToolExecution.ToolRegistry.ValidateToolArgs` | backend/app/agents/domain/tool_execution.py:115-139 | the loop over the parameters finds the first missing one, or raises |
| `ToolExecution.ToolRegistry.Execute` | backend/app/agents/domain/tool_execution.py:159-209 | the executor returns the result of the specification for the registered tools |
| `TrajectoryRecorder.TrajectoryRecorder.RecordLlmCall` | backend/app/agents/runtime/trajectory_recorder.py:51-108 | one step with the next index and one turn of the history are appended |
| `TrajectoryRecorder.TrajectoryRecorder.RecordToolCall` | backend/app/agents/runtime/trajectory_recorder.py:110-148 | one step with the next index and one turn of the history are appended |
| `TrajectoryRecorder.TrajectoryRecorder.RecordReasoning` | backend/app/agents/runtime/trajectory_recorder.py:169-185 | one step is appended, the history stays |
| `TrajectoryRecorder.TrajectoryRecorder.RecordFinalAnswer` | backend/app/agents/runtime/trajectory_recorder.py:187-208 | one step and one turn are appended |
| `TrajectoryRecorder.TrajectoryRecorder.RecordError` | backend/app/agents/runtime/trajectory_recorder.py:210-220 | one error step is appended |
| `TrajectoryRecorder.TrajectoryRecorder.SetStatus` | backend/app/agents/runtime/trajectory_recorder.py:222-224 | the status changes and no other field may |
| `TrajectoryRecorder.TrajectoryRecorder.SetError` | backend/app/agents/runtime/trajectory_recorder.py:226-229 | the error is set and the status becomes failed; no other field may change |
| `TrajectoryRecorder.TrajectoryRecorder.Build` | backend/app/agents/runtime/trajectory_recorder.py:235-254 | the trajectory holds the recorded steps in order, the recorded status and error, and their metrics |
| `Trajectory.FindFinalResponse` | backend/app/agents/domain/trajectory.py:199-211 | the backward search finds the text of the last step that is a final answer or an LLM call that requested nothing |
| `Trajectory.AllToolCalls` | backend/app/agents/domain/trajectory.py:213-222 | the executed and the requested calls of all steps, in order |
| `Trajectory.Accumulate` | backend/app/agents/domain/trajectory.py:412-438 | the one pass over the steps accumulates the independent sum of every column |
| `Trajectory.ComputeTrajectoryMetrics` | backend/app/agents/domain/trajectory.py:396-459 | every metric is the declarative sum, ratio or sorted name set of the steps |
| `Trajectory.MetricsUnique` | backend/app/agents/domain/trajectory.py:396-459 | the steps determine the metrics, the order of the tool names included |
| `Trajectory.MetricsBounds` | backend/app/agents/domain/trajectory.py:437-443 | tool results equal tool calls, errors do not exceed steps, the error rate lies between 0 and 1, and there are no more tool names than calls |
| `Trajectory.CountsMean` | backend/app/agents/domain/trajectory.py:396-459 | no errors are counted if and only if no step has one or is one, all if every step does; no calls if and only if there are none; the error rate is zero if and only if no tool call failed |
| `Trajectory.AveragesWithin` | backend/app/agents/domain/trajectory.py:396-459 | bounds on the latencies of the LLM calls, or of the tool calls, bound their average |
| `Trajectory.TokensWithin` | backend/app/agents/domain/trajectory.py:396-459 | bounds on the tokens of the LLM calls bound the totals |
| `Trajectory.CostBounds` | backend/app/agents/domain/trajectory.py:396-459 | when no LLM call has a negative cost the total is at least that of each, and zero if and only if none costs anything |
| `Trajectory.DurationIsLongest` | backend/app/agents/domain/trajectory.py:396-459 | with instants that do not go back the duration is the longest time between two steps |
| `Trajectory.MetricsConcat` | backend/app/agents/domain/trajectory.py:396-459 | counts, tokens and cost of a concatenation add up, and its tool names are the sorted union |
| `Trajectory.AveragesConcat` | backend/app/agents/domain/trajectory.py:440-443 | error rate and average latencies of a concatenation combine weighted by their counts |
| `TrajectoryDict.RoundTrip` | backend/app/agents/domain/trajectory.py:236-393 | reading a written trajectory gives it back with the nested start and end times reset |
| `TrajectoryDict.RoundTripExactly` | backend/app/agents/domain/trajectory.py:236-393 | the round trip is the identity if and only if the nested times were already reset |
| `TrajectoryDict.DictStable` | backend/app/agents/domain/trajectory.py:236-393 | the dictionary survives any number of round trips unchanged |
| `TrajectoryDict.RoundTripKeeps` | backend/app/agents/domain/trajectory.py:199-222 | a round trip keeps the final response, the order of the tool calls and every recomputed metric; nested durations become the recorded latency |
| `TrajectoryDict.DurationChangesExactly` | backend/app/agents/domain/trajectory.py:67-72 | the duration of a tool call survives the round trip unless it was completed in another time than its latency |
| `TrajectoryDict.DefaultsRead` | backend/app/agents/domain/trajectory.py:312-400 | a dictionary with its required keys alone is read as a completed, empty trajectory |
| `TrajectoryDict.StepDefaultsRead` | backend/app/agents/domain/trajectory.py:312-400 | the same for a step with an LLM call and a tool call |
| `TrajectoryDict.ReadsExactly` | backend/app/agents/domain/trajectory.py:312-400 | reading raises if and only if the status or the type of a step is none of the known values |
| `EventStream.AuthenticatedEventSource.Receive` | frontend/lib/api.ts:104-113 | after a read the buffer is the text behind the last newline and the data lines of the rest have been delivered |
| `EventStream.AuthenticatedEventSource.Connect` | frontend/lib/api.ts:68-121 | for every way the connection can go, the client has delivered the data of the finished lines of everything that arrived, whatever the chunks, and ends closed with one error or none |
| `EventStream.LinesConcat` | frontend/lib/api.ts:105-106 | splitting text behind a carried-over rest is splitting the whole: the incremental parse is the batch parse |
| `EventStream.DeliveriesConcat` | frontend/lib/api.ts:100-114 | what is delivered does not depend on where the text is cut |
| `EventStream.SseGenerator` | backend/app/api/observability.py:38-45 | the frames of all events before the disconnection, or of those whose type begins with `evaluation.` in a progress stream, in order |
| `EventStream.SentExactly` | backend/app/api/observability.py:38-45 | with d the first disconnected index: the first d events are sent, and in a progress stream exactly the evaluation events among them |
| `EventStream.FrameDelivers` | backend/app/api/observability.py:45 | what a printed frame delivers, for any type and text: the data lines hidden in the type, then those of the text |
| `EventStream.StreamDelivers` | backend/app/api/observability.py:45 | a printed stream delivers exactly its payloads if and only if no event type contains a newline followed by the data marker; types without newlines never do |
| `EventStream.QuietExactly` | backend/app/api/observability.py:45 | the printed type line has data for the client if and only if the type contains a newline followed by the data marker |
| `EventStream.HiddenDelivers` | backend/app/api/observability.py:45 | a type with such a line in it delivers two texts instead of one, for any texts |
| `EventStream.TruncatedStreamDelivers` | frontend/lib/api.ts:100-114 | a stream whose types hide no data line, cut off after any character delivers a prefix of the payloads, exactly those whose data line is finished |
| `EventStream.TruncatedStreamExactly` | frontend/lib/api.ts:100-114 | it does so after every character if and only if no event type contains a newline followed by the data marker |
| `EventStream.EndToEnd` | backend/app/api/observability.py:38-45 | generator to client, for every chunking and every truncation: the arrived payloads of the sent events, if their types hide no data line; the sent events are all before the disconnection, or the evaluation events of them |
| `RunProgress.EvaluationRun.RecordItemFailure` | backend/app/evaluation/domain/entities/evaluation_entities.py:609-613 | a failure is also a completion |
| `RunProgress.EvaluationRun.RecordLatency` | backend/app/evaluation/domain/entities/evaluation_entities.py:637-650 | the running average with the counters at that moment |
| `RunProgress.Handle` | backend/app/evaluation/application/run_handlers.py:183-232 | the counted loops of recordings leave the run at the specified progress, no other run changes, and an unknown run changes nothing |
| `RunProgress.ApplyIdempotent` | backend/app/evaluation/application/run_handlers.py:198-217 | delivering a snapshot again changes no counter |
| `RunProgress.ApplyKeepsOrder` | backend/app/evaluation/application/run_handlers.py:200-206 | counters never go down, and failed never exceeds completed |
| `RunProgress.ApplyReachesExactly` | backend/app/evaluation/application/run_handlers.py:200-206 | completed reaches the newer of both totals if and only if no more items newly failed than were newly processed; failed, tokens and cost always do |
| `RunProgress.ApplyOvershoots` | backend/app/evaluation/application/run_handlers.py:200-206 | a pair of totals for which completed overshoots both |
| `RunProgress.LatencyIsNotIdempotent` | backend/app/evaluation/application/run_handlers.py:216-217 | repeating a first snapshot of 100 ms moves the average on from 50 |
| `RunProgress.RepeatChangesNothingExactly` | backend/app/evaluation/domain/entities/evaluation_entities.py:637-650 | repeating a snapshot changes nothing at all if and only if it has no latency, or the run has no items, or its latency lies above the average it led to by no more than the number of items |
| `RunProgress.DeliveryConverges` | backend/app/evaluation/application/run_handlers.py:183-220 | any delivery of a cumulative history, with repetitions and in any order, leaves the run equal to the newest snapshot delivered, failed never above completed |
| `RunProgress.DeliveryOrderIrrelevant` | backend/app/agents/application/run_handlers.py:133-158 | two deliveries with the same newest snapshot leave the same counters |
| `ApiKeys.ApiKey.RecordUsage` | backend/app/apikeys/domain.py:109-112 | one more use, at the given instant |
| `ApiKeys.ApiKey.Revoke` | backend/app/apikeys/domain.py:114-116 | only activity changes |
| `ApiKeys.ApiKeyService.CreateKey` | backend/app/apikeys/services.py:17-35 | the store and the outcome are those of the state machine; a new key is stored |
| `ApiKeys.ApiKeyService.ValidateKey` | backend/app/apikeys/services.py:37-50 | as the state machine: the key found by hash is used once, or the request is refused and nothing changes |
| `ApiKeys.ApiKeyService.RevokeKey` | backend/app/apikeys/services.py:52-65 | as the state machine: only the owner revokes |
| `ApiKeys.ApiKeyService.RotateKey` | backend/app/apikeys/services.py:67-104 | as the state machine: the old key becomes inactive and a new one names it |
| `ApiKeys.ApiKeyService.DeleteKey` | backend/app/apikeys/services.py:109-119 | as the state machine: only the owner deletes |
| `ApiKeys.FindsHolder` | backend/app/apikeys/services.py:37-40 | in every kept store a hash identifies its key |
| `ApiKeys.ReachableKept` | backend/app/apikeys/services.py:17-119 | every reachable store keeps: stored keys are as issued but for use and revocation, parents precede their successors and are inactive, hashes are distinct |
| `ApiKeys.ReplacedKeyInactive` | backend/app/apikeys/services.py:81-102 | a stored key that another names as `rotated_from` is inactive, differs from it, and has its owner, organization and scopes |
| `ApiKeys.RevokedStaysRevoked` | backend/app/apikeys/domain.py:114-116 | after any further operations a revoked key is inactive or deleted |
| `ApiKeys.LineageConstant` | backend/app/apikeys/services.py:81-102 | a rotation lineage never repeats a key and has one owner, organization and list of scopes |
| `ApiKeys.UsageCounts` | backend/app/apikeys/domain.py:109-112 | `usage_count` is the number of successful validations of the key, and it was last used at the last of them |
| `ApiKeys.ValidatesExactly` | backend/app/apikeys/services.py:37-50 | a raw key validates if and only if a stored key has its hash, is active and has no expiry before now; a stored key that is revoked or past its expiry is refused as such, any other as unknown |
| `ApiKeys.CreatedRow` | backend/app/apikeys/domain.py:115-152 | what a new key is issued with: hash, twelve characters of prefix, owner, organization, scopes, stripped name, active, unused, and an expiry of the given days |
| `ApiKeys.RotatedRowIs` | backend/app/apikeys/services.py:71-105 | what a rotated key is issued with: everything of the key it replaces but hash and prefix, ninety days, and that key as its origin |
| `ApiKeys.KeyLives` | backend/app/apikeys/services.py:37-119 | a key is stored and active until its owner revokes, rotates or deletes it, and only until then |
| `ApiKeys.CreatedKeyValidates` | backend/app/apikeys/services.py:17-119 | after any history since its creation a raw key validates if and only if its owner has not revoked, rotated or deleted it and its days are not over |
| `ApiKeys.RotatedKeyValidates` | backend/app/apikeys/services.py:37-119 | so does the key that a rotation made, for ninety days |
| `ApiKeys.EndedKeyNeverValidates` | backend/app/apikeys/services.py:37-119 | after a successful revocation, rotation or deletion no later validation accepts the key |
| `ApiKeys.OwnerOnly` | backend/app/apikeys/services.py:54-119 | revoking, rotating and deleting: not found if and only if not stored, not authorized if and only if someone else's, and done otherwise |
| `ReportRefresh.ReportRefreshService.Invalidate` | backend/app/analytics/services/report_refresh_service.py:43-58 | one entry is appended |
| `ReportRefresh.ReportRefreshService.IsStale` | backend/app/analytics/services/report_refresh_service.py:60-66 | the backward search answers whether an entry of the entity is in the log |
| `ReportRefresh.ReportRefreshService.GetInvalidations` | backend/app/analytics/services/report_refresh_service.py:68-80 | the entries of the type, if given, that are not older than `since`, if given, in order |
| `ReportRefresh.ReportRefreshService.Clear` | backend/app/analytics/services/report_refresh_service.py:82-97 | the entries of the type and the id, where given, are removed and counted, the others kept in order |
| `ReportRefresh.EntriesConserved` | backend/app/analytics/services/report_refresh_service.py:43-97 | entries appended = entries live + the sum of all `clear` returns |
| `ReportRefresh.LogIsSurvivors` | backend/app/analytics/services/report_refresh_service.py:43-97 | the log is the invalidations not followed by a matching clear, in the order made |
| `ReportRefresh.StaleExactly` | backend/app/analytics/services/report_refresh_service.py:60-97 | an entity is stale if and only if some invalidation of it is followed by no clear of it, of its type, of its id or of everything |
| `EvaluationRuns.WorkflowIdsApart` | backend/app/api/evaluation_run.py:61-75 | a run's own workflow id is never that of an idempotency key; own ids differ with the run, shared ones with the digest |
| `EvaluationRuns.CreateExactly` | backend/app/api/evaluation_run.py:186-280 | when a create request makes a new run, returns the existing one, or is rejected, and what the new run is: the requested configuration, queued, under the workflow id of its key or its own |
| `EvaluationRuns.RetryExactly` | backend/app/evaluation/application/run_handlers.py:375-408 | a retry makes a new run if and only if the source is stored and owned, failed or timed out, has a dataset, and the workflow starts; the run has the source's configuration and a workflow id of its own |
| `EvaluationRuns.ReachableKept` | backend/app/api/evaluation_run.py:217-422 | in every reachable store all runs have distinct workflow ids and every retry has its source's configuration with a non-empty dataset |
| `EvaluationRuns.RepeatedKeyReturnsFirst` | backend/app/api/evaluation_run.py:217-245 | a create request that repeats a key gets the first run with it, whatever happened in between, and changes nothing |
| `EvaluationRuns.RunPersists` | backend/app/api/evaluation_run.py:217-422 | a run keeps its workflow id and its configuration for ever |
| `EvaluationRuns.RunsCounted` | backend/app/api/evaluation_run.py:217-422 | the number of runs is the number of accepted digests plus the new runs without a key, and a digest is accepted exactly when a run has its workflow id |
| `EvaluationRuns.RunCount` | backend/app/api/evaluation_run.py:217-422 | with no two keys sharing a digest: runs = distinct keys + unkeyed creates + retries |
| `EvaluationRuns.RetryChainConstant` | backend/app/evaluation/application/run_handlers.py:375-408 | every run of a retry chain has the configuration of its root, and the root's dataset is not empty |
| `EvaluationRuns.RunService.CreateRun` | backend/app/api/evaluation_run.py:186-280 | the idempotency lookup, the create handler and the start of the workflow leave the store and the outcome of the state machine |
| `EvaluationRuns.RunService.RetryRun` | backend/app/api/evaluation_run.py:370-422 | the ownership check, the retry handler and the start of the workflow leave the store and the outcome of the state machine |
| `Histogram.IndexExactly` | backend/app/analytics/services/experiment_analytics.py:220-222 | the computed index is in range and is that of the one bin that contains the score |
| `Histogram.CountInto` | backend/app/analytics/services/experiment_analytics.py:218-222 | counting in place gives, for each bin, the number of scores with its index |
| `Histogram.GetDistribution` | backend/app/analytics/services/experiment_analytics.py:200-229 | the three cases of the distribution: no scores, equal scores, a histogram |
| `Histogram.HistogramConserves` | backend/app/analytics/services/experiment_analytics.py:216-229 | the edges are evenly spaced from the lowest score to the highest, the counts add up to the number of scores, and every score lies between two edges |
| `Histogram.HistogramCounts` | backend/app/analytics/services/experiment_analytics.py:220-222 | each count is exactly the number of scores at or above its edge and below the next, or up to the last |
| `Histogram.HistogramOfEqual` | backend/app/analytics/services/experiment_analytics.py:203-214 | equal scores are one count at their value, and no scores none |
| `Histogram.ScoresOfRows` | backend/app/analytics/services/experiment_analytics.py:201 | the scores are those of the rows without an error, in order |
| `Histogram.HistogramOrderIrrelevant` | backend/app/analytics/services/experiment_analytics.py:200-229 | permuting the scores does not change the distribution |
| `PassFail.GetSummary` | backend/app/analytics/services/experiment_analytics.py:256-292 | a metric is summarised exactly when a row without an error carries it, with the average, the number and the threshold of those rows; it passes if and only if it has no threshold or averages at least that; the failed count is exact, passed and failed add up, and the run passes if and only if every metric does |
| `Leaderboard.SortAndRank` | backend/app/analytics/services/leaderboard_service.py:95-117 | sorting in place, cutting and numbering give the top of the entries |
| `Leaderboard.GetLeaderboard` | backend/app/analytics/services/leaderboard_service.py:60-117 | the board for the chosen ranking, from one accumulator per model |
| `Leaderboard.SortValueIsValue` | backend/app/analytics/services/leaderboard_service.py:74-93 | the accumulated sort value is the cost, latency or score of the model's runs |
| `Leaderboard.LeaderboardIsTop` | backend/app/analytics/services/leaderboard_service.py:60-117 | the board has the first `limit` places (all but the last -limit for a negative one), ranked from 1, each model at most once with its last provider; by latency and by cost the rounded averages of the models' runs ascend and none left off is lower, by any other ranking the rounded completion scores descend and none left off is higher |
| `LeaderboardPlaces.RankExactly` | backend/app/analytics/services/leaderboard_service.py:95-117 | a model with k others ahead of it, by a better rounded score or by an equal one and being seen first, has place k and rank k + 1 of the board if the limit allows that many places, and is left off otherwise: the runs and the limit determine the whole board |
| `LeaderboardPlaces.TiesGoToFirstSeen` | backend/app/analytics/services/leaderboard_service.py:102-106 | models with equal scores rank in the order first seen, on the board and at the cut |
| `LeaderboardPlaces.BetterIsTied` | backend/app/analytics/services/leaderboard_service.py:96-106 | with a monotone rounding a model that is better by its unrounded value than one above it on the board, or than one on the board when it is left off, has the same score |
| `LeaderboardPlaces.TrueTopExactly` | backend/app/analytics/services/leaderboard_service.py:96-106 | with a monotone rounding no model left off is better by its unrounded value than one on the board, if and only if of any two models with equal rounded scores, one with fewer models ahead of it than there are places and one with as many or more, the second is not the better one |
| `LeaderboardPlaces.DearerModelOnTop` | backend/app/analytics/services/leaderboard_service.py:96-106 | two models whose costs round alike: the dearer one, seen first, is the whole board |
| `Comparison.FindBest` | backend/app/analytics/services/comparison_service.py:87-161 | one pass finds the first highest score and the first lowest positive latency and cost |
| `Comparison.BestMissingExactly` | backend/app/analytics/services/comparison_service.py:87-161 | a best entity is missing if and only if there is no candidate for it |
| `RunRows.AverageLatencyZero` | backend/app/analytics/services/comparison_service.py:111-112 | the average latency of a group is never negative, and zero if and only if no run of it has a latency, so excluding zero excludes exactly the groups without one |
| `RunRows.CompletionScoreExactly` | backend/app/analytics/services/comparison_service.py:104-106 | with items the score times their number is a hundred times the completed ones: zero if and only if none, a hundred if and only if all are completed |
| `Comparison.ComputeValues` | backend/app/analytics/services/comparison_service.py:61-135 | grouping gives each entity the values of its own runs |
| `Comparison.Compare` | backend/app/analytics/services/comparison_service.py:35-161 | the compared items are the models, or the providers, with selected runs, each once, sorted, with the score, latency and cost of exactly its runs, and the best ones are the true extremes |
| `Costs.EntryDescribesGroup` | backend/app/analytics/services/cost_service.py:70-115 | an entry holds the sum, the number and the average of its group's costs |
| `Costs.ComputeCosts` | backend/app/analytics/services/cost_service.py:70-115 | one entry per name, most expensive first by displayed cost |
| `Costs.CostsConserved` | backend/app/analytics/services/cost_service.py:48-115 | over all entries costs and run counts add up to the totals of the runs, for providers and for models, in order of the displayed costs |
| `Latency.GetAnalysis` | backend/app/analytics/services/latency_service.py:27-118 | average and percentiles of the runs that have a latency, and their groups by provider and by model; empty when there is none |
| `Latency.ComputeLatencies` | backend/app/analytics/services/latency_service.py:75-118 | one entry per provider, or per model, fastest first by displayed average |
| `Latency.LatenciesGrouped` | backend/app/analytics/services/latency_service.py:75-118 | a name has an entry if and only if a run of it has a latency, with the average and the number of its latencies; every such run is counted once, and the displayed averages ascend |
| `Latency.Analyse` | backend/app/analytics/services/latency_service.py:48-73 | each percentile is a sample with more than p per cent of the samples at or below it and at most p per cent below it; they are in increasing order, and the average lies between minimum and maximum |
| `Latency.PercentileRank` | backend/app/analytics/services/latency_service.py:56-62 | the element at the computed index of the sorted list is the p-th percentile by counting, and the cap on the index never takes effect |
| `Grouping.FoldBy` | backend/app/analytics/services/cost_service.py:70-84 | a dictionary filled in a loop holds, for each key in order of appearance, the fold of the rows that carry it |
| `Grouping.KeysInOrder` | backend/app/analytics/services/cost_service.py:70-84 | the keys stand in the order in which they first occur |
| `Grouping.GroupsConserve` | backend/app/analytics/services/cost_service.py:48-84 | over all groups a column adds up to its total |
| `Sorting.SortSorts` | backend/app/analytics/services/leaderboard_service.py:95-106 | sorting keeps the elements and puts them in order |
| `Sorting.SortIsStable` | backend/app/analytics/services/leaderboard_service.py:95-106 | elements with equal keys keep their order |
| `Sorting.SortKeepsTies` | backend/app/analytics/services/leaderboard_service.py:103 | of two elements with equal keys the one sorted first came first |
| `Gate.FindOperator` | redops-gate/redops_gate.py:152-156 | the first candidate operator that occurs anywhere in the specification, or none |
| `Gate.ParseThreshold` | redops-gate/redops_gate.py:152-169 | one specification parses as specified, or is rejected with the right one of two errors |
| `Gate.ParseThresholds` | redops-gate/redops_gate.py:148-170 | all specifications parse, or the error is that of the first that does not |
| `Gate.ParseDetermined` | redops-gate/redops_gate.py:152-169 | a specification parses in one way only |
| `Gate.ParseUndoesPrintExactly` | redops-gate/redops_gate.py:148-170 | printing a threshold and parsing it gives it back, with the metric stripped, if and only if nothing in the metric followed by the operator reads as an operator found earlier |
| `Gate.ParseUndoesPrint` | redops-gate/redops_gate.py:148-170 | every metric and number without operator characters, and every operator, comes back, although `>` is part of `>=` |
| `Gate.MetricMisread` | redops-gate/redops_gate.py:153-162 | a metric that ends in `>` never comes back with `==` |
| `Gate.CheckThresholds` | redops-gate/redops_gate.py:173-199 | the gate passes if and only if every threshold has a score that satisfies it; the violations are the others, in order |
| `Gate.WrittenMeaning` | redops-gate/redops_gate.py:148-199 | from the text to the verdict: a metric, one of the six operators and a numeral hold of the scores if and only if the metric has a score that compares so with the number |
| `Gate.AllHold` | redops-gate/redops_gate.py:148-199 | parsed specifications are all satisfied if and only if each holds of the scores |
| `Gate.RunGate` | redops-gate/redops_gate.py:224-287 | the polling loop ends, as the outcome of its last answer says, after at most timeout / step polls, rounded up |
| `Gate.ExitCodes` | redops-gate/redops_gate.py:224-287 | in terms of the answers, the clock and the thresholds: exit 0, 1 and 3 mean the first final status seen before giving up, exit 4 that the deadline passed first, exit 2 that the run did not start: each an if-and-only-if |
| `Checkpoints.DueExactly` | backend/app/ai/core/checkpoint.py:10-23 | a checkpoint is due exactly at the non-zero multiples of the interval, whatever its sign |
| `Checkpoints.NextTargetIsNextDue` | backend/app/ai/core/checkpoint.py:26-38 | the target is the first later count at which a checkpoint is due; with a negative interval it is not later |
| `Checkpoints.MaybeCheckpoint` | backend/app/agents/runtime/checkpoint.py:20-45 | a due report saves one checkpoint with the next number, sets it on the run and raises its event; any other changes nothing, and no other run is touched |
| `Checkpoints.NumbersAreConsecutive` | backend/app/agents/runtime/checkpoint.py:28-45 | for any list of reports there is one checkpoint for each due one, numbered from one without gaps or repetitions |
| `Checkpoints.ProgressiveRun` | backend/app/agents/runtime/checkpoint.py:27-45 | a run that counts its steps has after n of them n / interval checkpoints, at the multiples of the interval (of its absolute value, or of five for none), numbered in order |
| `Text.SortedSetUnique` | backend/app/agents/domain/trajectory.py:455 | there is one sorted list of a set of names |
| `Text.LexLessExactly` | backend/app/agents/domain/trajectory.py:455 | strings compare by the code points at their first difference, the shorter first |
| `Text.SpacesExactly` | backend/app/apikeys/domain.py:26-54 | the characters that stripping removes are the twenty-nine of the language |
| `Text.Sorted` | backend/app/agents/domain/trajectory.py:455 | sorts a set of names |
| `Text.StripIdempotent` | backend/app/apikeys/domain.py:26-54 | stripping twice is stripping once, so a stored name survives loading |
| `Text.StripRemovesSpaces` | redops-gate/redops_gate.py:169 | stripping removes spaces at the two ends and nothing else |
| `Text.FindsFirst` | redops-gate/redops_gate.py:154-162 | the search finds the first occurrence, or there is none |

## Left out

- AgentLoop.Execute: does not model `total_duration_ms` of the result, which is a difference of clock readings, nor exceptions outside `Exception` (such as a cancelled coroutine), which the loop does not catch.
- EventStream.EndToEnd: characters instead of bytes, so UTF-8 decoding in the stream reader is not modelled.
- TrajectoryDict.RoundTrip: dictionaries have all their required keys; the `KeyError` of a missing one is not modelled. ISO date texts are instants.
- RunProgress.DeliveryConverges: the average latency is not part of the convergence, because it does not converge; `RunProgress.RepeatChangesNothingExactly` says when a repetition leaves it alone.
- RunProgress.Handle: identifiers that are not UUIDs, and the columns of a run that are not progress, are not modelled.
- ApiKeys.ApiKeyService.CreateKey: listing keys, and `activate` and `update_expiry` of the entity, which no service calls, are not modelled.
- EvaluationRuns.RunService.CreateRun: requests are sequential; two concurrent requests with one key are resolved by the workflow server. Ownership checks are booleans.
- EvaluationRuns.ReachableKept: the lifecycle of a run between requests is an arbitrary change of status.
- Histogram.GetDistribution: at least one bin (the route asks for two to fifty); edges before display rounding.
- Costs.ComputeCosts: entries hold exact costs and not the displayed ones; averages over all runs and the monthly projection are pure expressions and not modelled.
- Latency.GetAnalysis: indices are exact, where the source multiplies by 0.95 and 0.99 in floating point; values are exact and not the displayed ones.
- Comparison.Compare: the compared values before display rounding.
- Gate.CheckThresholds: the wording of violations; scores are given, so `_collect_metrics`, which skips zero scores, is not modelled.
- Gate.ParseThresholds: takes a list of specifications, as its signature says; the command line passes it one text.
- Gate.RunGate: resolving the evaluation and sending the request are one answer; a payload without an id is not modelled.
- ToolExecution.ToolRegistry.Register: listing tools, and their schemas.
- TrajectoryRecorder.TrajectoryRecorder.Build: `record_tool_result` and `set_metadata`, which the loop does not call.
- Experiment comparison (`experiment_analytics.py`), which repeats the minimum search of `Comparison`.
- The run state machine, its transition table and the Temporal workflows.
- HTTP routing, schemas, SQL repositories, Redis and the React client beyond the event source.
- Floating-point error and display rounding in general.
- Planner arithmetic, dataset loaders, pagination, role tables and migrations: finite or easy.
