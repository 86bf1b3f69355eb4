/** The recorder that accumulates a run's steps and builds the trajectory
    (backend/app/agents/runtime/trajectory_recorder.py).  Instants are passed in. */
module TrajectoryRecorder {
  import opened Wrappers
  import opened ToolExecution
  import opened Trajectory

  /** The recorder's state as a value. */
  datatype Recording = Recording(
    steps: seq<Step>, history: seq<HistoryEntry>, status: Status, error: Option<string>)
  {
    function WithStep(step: Step): Recording {
      this.(steps := steps + [step])
    }

    function WithLlmCall(call: LlmCallRecord, reasoning: string, now: Time): Recording {
      WithStep(Step(|steps|, LlmCallStep, Some(call), None, call.responseContent, reasoning, None, now))
      .(history := history + [AssistantTurn(call.responseContent, Some(call.toolCallsRequested))])
    }

    function WithToolCall(call: ToolCallRecord, now: Time): Recording {
      WithStep(Step(|steps|, ToolCallStep, None, Some(call), call.text, "", None, now))
      .(history := history + [ToolTurn(call.toolCallId, call.text)])
    }

    function WithReasoning(content: string, reasoning: string, now: Time): Recording {
      WithStep(Step(|steps|, ReasoningStep, None, None, content, reasoning, None, now))
    }

    function WithFinalAnswer(content: string, now: Time): Recording {
      WithStep(Step(|steps|, FinalAnswerStep, None, None, content, "", None, now))
      .(history := history + [AssistantTurn(content, None)])
    }

    function WithError(message: string, now: Time): Recording {
      WithStep(Step(|steps|, ErrorStep, None, None, "", "", Some(message), now))
    }

    function WithStatus(s: Status): Recording {
      this.(status := s)
    }

    function WithFailure(message: string): Recording {
      this.(error := Some(message), status := FailedStatus)
    }

    /** Every step carries its own position. */
    ghost predicate Indexed() {
      forall i :: 0 <= i < |steps| ==> steps[i].stepIndex == i
    }
  }

  /** What the records that the loop does not make count as: a reasoning step is neither
      an error nor an answer, an error step is an error with that message, and neither
      has a turn in the history. */
  lemma ReasoningAndErrors(rec: Recording, content: string, reasoning: string, message: string, now: Time)
    ensures var after := rec.WithReasoning(content, reasoning, now);
            && |after.steps| == |rec.steps| + 1 && after.history == rec.history
            && var step := after.steps[|rec.steps|];
               && !step.IsError() && AnswerOf(step).None? && CallsOf(step) == [] && step.stepType.ReasoningStep?
               && step.content == content && step.reasoning == reasoning && step.timestamp == now
    ensures var after := rec.WithError(message, now);
            && |after.steps| == |rec.steps| + 1 && after.history == rec.history
            && var step := after.steps[|rec.steps|];
               && step.IsError() && AnswerOf(step).None? && CallsOf(step) == [] && step.stepType.ErrorStep?
               && step.error == Some(message) && step.content == "" && step.timestamp == now
  {
  }

  const FRESH := Recording([], [], Completed, None)

  class TrajectoryRecorder {
    const runId: string
    const agentName: string
    const taskDescription: string
    const startedAt: Time
    var steps: seq<Step>
    var history: seq<HistoryEntry>
    var status: Status
    var error: Option<string>
    var completedAt: Option<Time>
    var metadata: map<string, Json>
    var stepCounter: nat

    ghost function Contents(): Recording
      reads this
    {
      Recording(steps, history, status, error)
    }

    ghost predicate Valid()
      reads this
    {
      stepCounter == |steps| && Contents().Indexed()
    }

    constructor (runId: string, agentName: string, taskDescription: string, now: Time)
      ensures Valid() && Contents() == FRESH && startedAt == now
      ensures this.runId == runId && this.agentName == agentName && this.taskDescription == taskDescription
    {
      this.runId, this.agentName, this.taskDescription, startedAt := runId, agentName, taskDescription, now;
      steps, history, status, error := [], [], Completed, None;
      completedAt, metadata, stepCounter := None, map[], 0;
    }

    method RecordLlmCall(provider: string, model: string, messagesSent: nat, responseContent: string,
                         toolCallsRequested: seq<ToolCallRecord>, tokensInput: int, tokensOutput: int,
                         costUsd: real, latencyMs: int, finishReason: string, reasoning: string, now: Time)
      requires Valid()
      modifies this`steps, this`stepCounter, this`history
      ensures Valid()
      ensures Contents() == old(Contents()).WithLlmCall(
                LlmCallRecord(provider, model, messagesSent, responseContent, toolCallsRequested, tokensInput,
                              tokensOutput, costUsd, latencyMs, finishReason, now, Some(now)), reasoning, now)
    {
      var llmCall := LlmCallRecord(provider, model, messagesSent, responseContent, toolCallsRequested, tokensInput,
                                   tokensOutput, costUsd, latencyMs, finishReason, now, Some(now));
      var step := Step(stepCounter, LlmCallStep, Some(llmCall), None, responseContent, reasoning, None, now);
      steps := steps + [step];
      stepCounter := stepCounter + 1;
      history := history + [AssistantTurn(responseContent, Some(toolCallsRequested))];
    }

    method RecordToolCall(toolCallId: string, toolName: string, arguments: Json, text: string, isError: bool,
                          latencyMs: int, now: Time)
      requires Valid()
      modifies this`steps, this`stepCounter, this`history
      ensures Valid()
      ensures Contents() == old(Contents()).WithToolCall(
                ToolCallRecord(toolCallId, toolName, arguments, text, isError, latencyMs, now, Some(now)), now)
    {
      var toolCall := ToolCallRecord(toolCallId, toolName, arguments, text, isError, latencyMs, now, Some(now));
      var step := Step(stepCounter, ToolCallStep, None, Some(toolCall), text, "", None, now);
      steps := steps + [step];
      stepCounter := stepCounter + 1;
      history := history + [ToolTurn(toolCallId, text)];
    }

    method RecordReasoning(content: string, reasoning: string, now: Time)
      requires Valid()
      modifies this`steps, this`stepCounter
      ensures Valid()
      ensures Contents() == old(Contents()).WithReasoning(content, reasoning, now)
    {
      steps := steps + [Step(stepCounter, ReasoningStep, None, None, content, reasoning, None, now)];
      stepCounter := stepCounter + 1;
    }

    method RecordFinalAnswer(content: string, now: Time)
      requires Valid()
      modifies this`steps, this`stepCounter, this`history
      ensures Valid()
      ensures Contents() == old(Contents()).WithFinalAnswer(content, now)
    {
      steps := steps + [Step(stepCounter, FinalAnswerStep, None, None, content, "", None, now)];
      stepCounter := stepCounter + 1;
      history := history + [AssistantTurn(content, None)];
    }

    method RecordError(message: string, now: Time)
      requires Valid()
      modifies this`steps, this`stepCounter
      ensures Valid()
      ensures Contents() == old(Contents()).WithError(message, now)
    {
      steps := steps + [Step(stepCounter, ErrorStep, None, None, "", "", Some(message), now)];
      stepCounter := stepCounter + 1;
    }

    method SetStatus(s: Status)
      requires Valid()
      modifies this`status
      ensures Valid()
      ensures Contents() == old(Contents()).WithStatus(s)
    {
      status := s;
    }

    method SetError(message: string)
      requires Valid()
      modifies this`error, this`status
      ensures Valid()
      ensures Contents() == old(Contents()).WithFailure(message)
    {
      error := Some(message);
      status := FailedStatus;
    }

    /** The immutable trajectory: the recorded steps with their metrics. */
    method Build(trajectoryId: string, now: Time) returns (t: Trajectory)
      requires Valid()
      modifies this`completedAt
      ensures t.trajectoryId == trajectoryId && t.runId == runId && t.status == status && t.error == error
      ensures t.agentName == agentName && t.taskDescription == taskDescription
      ensures t.steps == steps && t.history == history && t.metadata == metadata
      ensures MetricsOf(t.steps, t.metrics)
      ensures t.startedAt == startedAt && t.completedAt == Some(now) == completedAt
    {
      completedAt := Some(now);
      var metrics := ComputeTrajectoryMetrics(steps);
      t := Trajectory(trajectoryId, runId, agentName, taskDescription, status, steps, metrics, history,
                      startedAt, completedAt, error, metadata);
    }
  }
}
