/** Serialising a trajectory to a dictionary and reading it back
    (backend/app/agents/domain/trajectory.py, `to_dict` and `from_dict`).
    A key read with a default is an Option here; None means the key is absent. */
module TrajectoryDict {
  import opened Wrappers
  import opened Collections
  import opened ToolExecution
  import opened Trajectory

  datatype ToolCallDict = ToolCallDict(
    toolCallId: string, toolName: string, arguments: Option<Json>, text: Option<string>,
    isError: Option<bool>, latencyMs: Option<int>)

  datatype LlmCallDict = LlmCallDict(
    provider: string, model: string, messagesSent: Option<nat>, responseContent: Option<string>,
    tokensInput: Option<int>, tokensOutput: Option<int>, costUsd: Option<real>, latencyMs: Option<int>,
    finishReason: Option<string>, toolCallsRequested: Option<seq<ToolCallDict>>)

  datatype StepDict = StepDict(
    stepIndex: int, stepType: string, content: Option<string>, reasoning: Option<string>,
    error: Option<string>, timestamp: Time, llmCall: Option<LlmCallDict>, toolCall: Option<ToolCallDict>)

  datatype MetricsDict = MetricsDict(
    totalSteps: Option<int>, llmCalls: Option<int>, toolCalls: Option<int>, toolResults: Option<int>,
    errors: Option<int>, totalTokensInput: Option<int>, totalTokensOutput: Option<int>,
    totalCostUsd: Option<real>, totalDurationMs: Option<int>, uniqueToolsUsed: Option<seq<string>>,
    toolErrorRate: Option<real>, averageLlmLatencyMs: Option<real>, averageToolLatencyMs: Option<real>)

  const NO_METRICS_DICT :=
    MetricsDict(None, None, None, None, None, None, None, None, None, None, None, None, None)

  datatype TrajectoryDict = TrajectoryDict(
    trajectoryId: string, runId: string, agentName: Option<string>, taskDescription: Option<string>,
    status: Option<string>, startedAt: Time, completedAt: Option<Time>, error: Option<string>,
    metadata: Option<map<string, Json>>, history: Option<seq<HistoryEntry>>,
    steps: Option<seq<StepDict>>, metrics: Option<MetricsDict>)

  function GetOr<T>(key: Option<T>, default: T): T {
    if key.Some? then key.value else default
  }

  // ----- Enumerations by their values -----

  function StatusValue(s: Status): string {
    match s
    case Completed => "completed"
    case FailedStatus => "failed"
    case Timeout => "timeout"
    case BudgetExhausted => "budget_exhausted"
    case MaxStepsReached => "max_steps_reached"
    case Cancelled => "cancelled"
  }

  function ParseStatus(value: string): Result<Status> {
    if value == "completed" then Ok(Completed)
    else if value == "failed" then Ok(FailedStatus)
    else if value == "timeout" then Ok(Timeout)
    else if value == "budget_exhausted" then Ok(BudgetExhausted)
    else if value == "max_steps_reached" then Ok(MaxStepsReached)
    else if value == "cancelled" then Ok(Cancelled)
    else Raise("not a valid TrajectoryStatus")
  }

  function StepTypeValue(t: StepType): string {
    match t
    case LlmCallStep => "llm_call"
    case ToolCallStep => "tool_call"
    case ToolResultStep => "tool_result"
    case ReasoningStep => "reasoning"
    case FinalAnswerStep => "final_answer"
    case ErrorStep => "error"
  }

  function ParseStepType(value: string): Result<StepType> {
    if value == "llm_call" then Ok(LlmCallStep)
    else if value == "tool_call" then Ok(ToolCallStep)
    else if value == "tool_result" then Ok(ToolResultStep)
    else if value == "reasoning" then Ok(ReasoningStep)
    else if value == "final_answer" then Ok(FinalAnswerStep)
    else if value == "error" then Ok(ErrorStep)
    else Raise("not a valid TrajectoryStepType")
  }

  // ----- to_dict -----

  function ToolCallToDict(c: ToolCallRecord): ToolCallDict {
    ToolCallDict(c.toolCallId, c.toolName, Some(c.arguments), Some(c.text), Some(c.isError), Some(c.latencyMs))
  }

  function LlmCallToDict(c: LlmCallRecord): LlmCallDict {
    LlmCallDict(c.provider, c.model, Some(c.messagesSent), Some(c.responseContent), Some(c.tokensInput),
                Some(c.tokensOutput), Some(c.costUsd), Some(c.latencyMs), Some(c.finishReason),
                Some(Map(ToolCallToDict, c.toolCallsRequested)))
  }

  function StepToDict(s: Step): StepDict {
    StepDict(s.stepIndex, StepTypeValue(s.stepType), Some(s.content), Some(s.reasoning), s.error, s.timestamp,
             if s.llmCall.Some? then Some(LlmCallToDict(s.llmCall.value)) else None,
             if s.toolCall.Some? then Some(ToolCallToDict(s.toolCall.value)) else None)
  }

  function MetricsToDict(m: Metrics): MetricsDict {
    MetricsDict(Some(m.totalSteps), Some(m.llmCalls), Some(m.toolCalls), Some(m.toolResults), Some(m.errors),
                Some(m.totalTokensInput), Some(m.totalTokensOutput), Some(m.totalCostUsd),
                Some(m.totalDurationMs), Some(m.uniqueToolsUsed), Some(m.toolErrorRate),
                Some(m.averageLlmLatencyMs), Some(m.averageToolLatencyMs))
  }

  function ToDict(t: Trajectory): TrajectoryDict {
    TrajectoryDict(t.trajectoryId, t.runId, Some(t.agentName), Some(t.taskDescription),
                   Some(StatusValue(t.status)), t.startedAt, t.completedAt, t.error, Some(t.metadata),
                   Some(t.history), Some(Map(StepToDict, t.steps)), Some(MetricsToDict(t.metrics)))
  }

  // ----- from_dict; `now` is the default of the start times that were not kept -----

  function ToolCallFromDict(d: ToolCallDict, now: Time): ToolCallRecord {
    ToolCallRecord(d.toolCallId, d.toolName, GetOr(d.arguments, Object(map[])), GetOr(d.text, ""),
                   GetOr(d.isError, false), GetOr(d.latencyMs, 0), now, None)
  }

  function LlmCallFromDict(d: LlmCallDict, now: Time): LlmCallRecord {
    LlmCallRecord(d.provider, d.model, GetOr(d.messagesSent, 0), GetOr(d.responseContent, ""),
                  Map(c => ToolCallFromDict(c, now), GetOr(d.toolCallsRequested, [])),
                  GetOr(d.tokensInput, 0), GetOr(d.tokensOutput, 0), GetOr(d.costUsd, 0.0),
                  GetOr(d.latencyMs, 0), GetOr(d.finishReason, ""), now, None)
  }

  function StepFromDict(d: StepDict, now: Time): Result<Step> {
    match ParseStepType(d.stepType)
    case Raise(m) => Raise(m)
    case Ok(stepType) =>
      Ok(Step(d.stepIndex, stepType,
              if d.llmCall.Some? then Some(LlmCallFromDict(d.llmCall.value, now)) else None,
              if d.toolCall.Some? then Some(ToolCallFromDict(d.toolCall.value, now)) else None,
              GetOr(d.content, ""), GetOr(d.reasoning, ""), d.error, d.timestamp))
  }

  function StepsFromDict(ds: seq<StepDict>, now: Time): Result<seq<Step>> {
    if ds == [] then Ok([])
    else
      match StepFromDict(ds[0], now)
      case Raise(m) => Raise(m)
      case Ok(first) =>
        match StepsFromDict(ds[1..], now)
        case Raise(m) => Raise(m)
        case Ok(rest) => Ok([first] + rest)
  }

  function MetricsFromDict(d: MetricsDict): Metrics {
    Metrics(GetOr(d.totalSteps, 0), GetOr(d.llmCalls, 0), GetOr(d.toolCalls, 0), GetOr(d.toolResults, 0),
            GetOr(d.errors, 0), GetOr(d.totalTokensInput, 0), GetOr(d.totalTokensOutput, 0),
            GetOr(d.totalCostUsd, 0.0), GetOr(d.totalDurationMs, 0), GetOr(d.uniqueToolsUsed, []),
            GetOr(d.toolErrorRate, 0.0), GetOr(d.averageLlmLatencyMs, 0.0), GetOr(d.averageToolLatencyMs, 0.0))
  }

  function FromDict(d: TrajectoryDict, now: Time): Result<Trajectory> {
    match StepsFromDict(GetOr(d.steps, []), now)
    case Raise(m) => Raise(m)
    case Ok(steps) =>
      match ParseStatus(GetOr(d.status, "completed"))
      case Raise(m) => Raise(m)
      case Ok(status) =>
        Ok(Trajectory(d.trajectoryId, d.runId, GetOr(d.agentName, ""), GetOr(d.taskDescription, ""), status,
                      steps, MetricsFromDict(GetOr(d.metrics, NO_METRICS_DICT)), GetOr(d.history, []),
                      d.startedAt, d.completedAt, d.error, GetOr(d.metadata, map[])))
  }

  // ----- What is read when keys are absent or values unknown -----

  /** A dictionary with its required keys alone is read as an empty, completed
      trajectory. */
  lemma DefaultsRead(trajectoryId: string, runId: string, startedAt: Time, now: Time)
    ensures FromDict(TrajectoryDict(trajectoryId, runId, None, None, None, startedAt, None, None, None, None, None,
                                    None), now)
         == Ok(Trajectory(trajectoryId, runId, "", "", Completed, [],
                          Metrics(0, 0, 0, 0, 0, 0, 0, 0.0, 0, [], 0.0, 0.0, 0.0), [], startedAt, None, None, map[]))
  {
  }

  /** So is a step, with the records in it. */
  lemma StepDefaultsRead(i: int, toolId: string, tool: string, provider: string, model: string, at: Time, now: Time)
    ensures var call := ToolCallDict(toolId, tool, None, None, None, None);
            var llm := LlmCallDict(provider, model, None, None, None, None, None, None, None, None);
            StepFromDict(StepDict(i, "llm_call", None, None, None, at, Some(llm), Some(call)), now)
            == Ok(Step(i, LlmCallStep, Some(LlmCallRecord(provider, model, 0, "", [], 0, 0, 0.0, 0, "", now, None)),
                       Some(ToolCallRecord(toolId, tool, Object(map[]), "", false, 0, now, None)), "", "", None, at))
  {
    assert Map((c: ToolCallDict) => ToolCallFromDict(c, now), []) == [];
  }

  const STATUSES := {"completed", "failed", "timeout", "budget_exhausted", "max_steps_reached", "cancelled"}
  const STEP_TYPES := {"llm_call", "tool_call", "tool_result", "reasoning", "final_answer", "error"}

  lemma {:induction false} StepsRead(ds: seq<StepDict>, now: Time)
    ensures StepsFromDict(ds, now).Ok? <==> forall d :: d in ds ==> d.stepType in STEP_TYPES
  {
    if ds == [] {
    } else {
      StepsRead(ds[1..], now);
      assert forall d :: d in ds <==> d == ds[0] || d in ds[1..];
    }
  }

  /** Reading raises exactly when the status or the type of a step is none of the known
      values. */
  lemma ReadsExactly(d: TrajectoryDict, now: Time)
    ensures FromDict(d, now).Ok? <==>
              && (d.status.Some? ==> d.status.value in STATUSES)
              && (d.steps.Some? ==> forall step :: step in d.steps.value ==> step.stepType in STEP_TYPES)
  {
    StepsRead(GetOr(d.steps, []), now);
  }

  // ----- What a round trip loses: the start and end times of nested records -----

  function ForgetCall(c: ToolCallRecord, now: Time): ToolCallRecord {
    c.(startedAt := now, completedAt := None)
  }

  function ForgetCalls(calls: seq<ToolCallRecord>, now: Time): (r: seq<ToolCallRecord>)
    ensures |r| == |calls| && forall i :: 0 <= i < |calls| ==> r[i] == ForgetCall(calls[i], now)
  {
    Map(c => ForgetCall(c, now), calls)
  }

  function ForgetLlm(c: LlmCallRecord, now: Time): LlmCallRecord {
    c.(startedAt := now, completedAt := None,
       toolCallsRequested := ForgetCalls(c.toolCallsRequested, now))
  }

  function ForgetStep(s: Step, now: Time): Step {
    s.(llmCall := if s.llmCall.Some? then Some(ForgetLlm(s.llmCall.value, now)) else None,
       toolCall := if s.toolCall.Some? then Some(ForgetCall(s.toolCall.value, now)) else None)
  }

  function ForgetTimes(t: Trajectory, now: Time): Trajectory {
    t.(steps := Map(s => ForgetStep(s, now), t.steps))
  }

  lemma StepRoundTrip(s: Step, now: Time)
    ensures StepFromDict(StepToDict(s), now) == Ok(ForgetStep(s, now))
  {
    if s.llmCall.Some? {
      var c := s.llmCall.value;
      assert LlmCallFromDict(LlmCallToDict(c), now).toolCallsRequested
          == ForgetLlm(c, now).toolCallsRequested;
    }
  }

  lemma {:induction false} StepsRoundTrip(steps: seq<Step>, now: Time)
    ensures StepsFromDict(Map(StepToDict, steps), now) == Ok(Map(s => ForgetStep(s, now), steps))
  {
    if steps == [] {
    } else {
      StepRoundTrip(steps[0], now);
      StepsRoundTrip(steps[1..], now);
      assert Map(StepToDict, steps)[1..] == Map(StepToDict, steps[1..]);
      var f := (s: Step) => ForgetStep(s, now);
      assert Map(f, steps) == [f(steps[0])] + Map(f, steps[1..]);
    }
  }

  /** Reading back what was written gives the trajectory itself, with only the
      nested start and end times reset. */
  lemma RoundTrip(t: Trajectory, now: Time)
    ensures FromDict(ToDict(t), now) == Ok(ForgetTimes(t, now))
  {
    StepsRoundTrip(t.steps, now);
  }

  ghost predicate CallTimesReset(c: ToolCallRecord, now: Time) {
    c.startedAt == now && c.completedAt == None
  }

  ghost predicate TimesReset(s: Step, now: Time) {
    && (s.toolCall.Some? ==> CallTimesReset(s.toolCall.value, now))
    && (s.llmCall.Some? ==>
          && s.llmCall.value.startedAt == now && s.llmCall.value.completedAt == None
          && forall c :: c in s.llmCall.value.toolCallsRequested ==> CallTimesReset(c, now))
  }

  lemma ForgetStepIdentity(s: Step, now: Time)
    ensures ForgetStep(s, now) == s <==> TimesReset(s, now)
  {
    if s.llmCall.Some? {
      var requested := s.llmCall.value.toolCallsRequested;
      var forgotten := ForgetLlm(s.llmCall.value, now).toolCallsRequested;
      assert forall i :: 0 <= i < |requested| ==> forgotten[i] == ForgetCall(requested[i], now);
      if ForgetStep(s, now) == s {
        assert ForgetLlm(s.llmCall.value, now) == s.llmCall.value;
        assert forgotten == requested;
      }
      if TimesReset(s, now) {
        assert forall i :: 0 <= i < |requested| ==> requested[i] in requested;
        assert forgotten == requested;
      }
    }
  }

  /** The round trip is the identity exactly on trajectories whose nested records
      have no end time and start at the instant of reading. */
  lemma RoundTripExactly(t: Trajectory, now: Time)
    ensures FromDict(ToDict(t), now) == Ok(t) <==> forall s :: s in t.steps ==> TimesReset(s, now)
  {
    RoundTrip(t, now);
    var forgotten := ForgetTimes(t, now).steps;
    forall i | 0 <= i < |t.steps|
      ensures forgotten[i] == t.steps[i] <==> TimesReset(t.steps[i], now)
    {
      ForgetStepIdentity(t.steps[i], now);
    }
    if forall s :: s in t.steps ==> TimesReset(s, now) {
      assert forgotten == t.steps;
    }
  }

  lemma StepToDictForgets(s: Step, now: Time)
    ensures StepToDict(ForgetStep(s, now)) == StepToDict(s)
  {
    if s.llmCall.Some? {
      var c := s.llmCall.value;
      assert Map(ToolCallToDict, ForgetLlm(c, now).toolCallsRequested) == Map(ToolCallToDict, c.toolCallsRequested);
    }
  }

  /** The dictionary itself survives any number of round trips unchanged. */
  lemma DictStable(t: Trajectory, now: Time)
    ensures FromDict(ToDict(t), now).Ok? && ToDict(FromDict(ToDict(t), now).value) == ToDict(t)
  {
    RoundTrip(t, now);
    forall i | 0 <= i < |t.steps|
      ensures StepToDict(ForgetTimes(t, now).steps[i]) == StepToDict(t.steps[i])
    {
      StepToDictForgets(t.steps[i], now);
    }
    assert Map(StepToDict, ForgetTimes(t, now).steps) == Map(StepToDict, t.steps);
  }

  // ----- What a round trip keeps -----

  lemma {:induction false} SumUnchanged(f: Step -> int, s: seq<Step>, t: seq<Step>)
    requires |s| == |t| && forall i :: 0 <= i < |s| ==> f(s[i]) == f(t[i])
    ensures Sum(f, s) == Sum(f, t)
  {
    if s == [] {
    } else {
      SumUnchanged(f, s[..|s| - 1], t[..|t| - 1]);
    }
  }

  lemma {:induction false} CostUnchanged(s: seq<Step>, t: seq<Step>)
    requires |s| == |t| && forall i :: 0 <= i < |s| ==> CostOf(s[i]) == CostOf(t[i])
    ensures SumReal(CostOf, s) == SumReal(CostOf, t)
  {
    if s == [] {
    } else {
      CostUnchanged(s[..|s| - 1], t[..|t| - 1]);
    }
  }

  lemma {:induction false} AnswerUnchanged(s: seq<Step>, t: seq<Step>)
    requires |s| == |t| && forall i :: 0 <= i < |s| ==> AnswerOf(s[i]) == AnswerOf(t[i])
    ensures FinalResponse(s) == FinalResponse(t)
  {
    if s == [] {
    } else {
      AnswerUnchanged(s[..|s| - 1], t[..|t| - 1]);
    }
  }

  lemma {:induction false} CallsForget(s: seq<Step>, u: seq<Step>, now: Time)
    requires |u| == |s| && forall i :: 0 <= i < |s| ==> CallsOf(u[i]) == ForgetCalls(CallsOf(s[i]), now)
    ensures FlatMap(CallsOf, u) == ForgetCalls(FlatMap(CallsOf, s), now)
  {
    if s == [] {
    } else {
      CallsForget(s[..|s| - 1], u[..|u| - 1], now);
    }
  }

  lemma NamesForget(calls: seq<ToolCallRecord>, now: Time)
    ensures NamesOf(ForgetCalls(calls, now)) == NamesOf(calls)
  {
    var forgotten := ForgetCalls(calls, now);
    forall name | name in NamesOf(calls) ensures name in NamesOf(forgotten) {
      var i :| 0 <= i < |calls| && calls[i].toolName == name;
      assert forgotten[i] in forgotten;
    }
    forall name | name in NamesOf(forgotten) ensures name in NamesOf(calls) {
      var i :| 0 <= i < |forgotten| && forgotten[i].toolName == name;
      assert calls[i] in calls;
    }
  }

  /** `u` is `s` step by step, with the nested times reset. */
  ghost predicate Forgotten(s: seq<Step>, u: seq<Step>, now: Time) {
    |u| == |s| && forall i :: 0 <= i < |s| ==> u[i] == ForgetStep(s[i], now)
  }

  lemma AnswerForgets(s: seq<Step>, u: seq<Step>, now: Time)
    requires Forgotten(s, u, now)
    ensures FinalResponse(u) == FinalResponse(s)
  {
    forall i | 0 <= i < |s| ensures AnswerOf(u[i]) == AnswerOf(s[i]) {
      if s[i].llmCall.Some? {
        assert |u[i].llmCall.value.toolCallsRequested| == |s[i].llmCall.value.toolCallsRequested|;
      }
    }
    AnswerUnchanged(u, s);
  }

  lemma MetricsForget(s: seq<Step>, u: seq<Step>, now: Time, m: Metrics)
    requires Forgotten(s, u, now)
    requires FlatMap(CallsOf, u) == ForgetCalls(FlatMap(CallsOf, s), now)
    ensures MetricsOf(u, m) <==> MetricsOf(s, m)
  {
    SumUnchanged(LlmCount, u, s);
    SumUnchanged(ToolCount, u, s);
    SumUnchanged(ErrorCount, u, s);
    SumUnchanged(ToolErrorCount, u, s);
    SumUnchanged(TokensIn, u, s);
    SumUnchanged(TokensOut, u, s);
    SumUnchanged(LlmLatency, u, s);
    SumUnchanged(ToolLatency, u, s);
    CostUnchanged(u, s);
    NamesForget(FlatMap(CallsOf, s), now);
  }

  /** The duration of a call changes exactly when it was completed in another time than
      its latency. */
  lemma DurationChangesExactly(c: ToolCallRecord, now: Time)
    ensures ForgetCall(c, now).DurationMs() != c.DurationMs() <==>
              c.completedAt.Some? && c.completedAt.value - c.startedAt != c.latencyMs
  {
  }

  lemma DurationsForget(calls: seq<ToolCallRecord>, now: Time)
    ensures forall c :: c in ForgetCalls(calls, now) ==> c.DurationMs() == c.latencyMs
  {
  }

  lemma CallsOfForgotten(s: Step, now: Time)
    ensures CallsOf(ForgetStep(s, now)) == ForgetCalls(CallsOf(s), now)
  {
  }

  lemma StepsKeep(s: seq<Step>, u: seq<Step>, now: Time, m: Metrics)
    requires Forgotten(s, u, now)
    ensures FinalResponse(u) == FinalResponse(s)
    ensures FlatMap(CallsOf, u) == ForgetCalls(FlatMap(CallsOf, s), now)
    ensures MetricsOf(u, m) <==> MetricsOf(s, m)
    ensures forall c :: c in FlatMap(CallsOf, u) ==> c.DurationMs() == c.latencyMs
  {
    AnswerForgets(s, u, now);
    forall i | 0 <= i < |s| ensures CallsOf(u[i]) == ForgetCalls(CallsOf(s[i]), now) {
      CallsOfForgotten(s[i], now);
    }
    CallsForget(s, u, now);
    MetricsForget(s, u, now, m);
    DurationsForget(FlatMap(CallsOf, s), now);
  }

  /** A round trip keeps the final response, the order of the tool calls and every
      metric that can be recomputed from the steps; what it changes is only how
      long a nested call seems to have taken. */
  lemma RoundTripKeeps(t: Trajectory, now: Time, m: Metrics)
    ensures FromDict(ToDict(t), now).Ok?
    ensures var u := FromDict(ToDict(t), now).value;
            && FinalResponse(u.steps) == FinalResponse(t.steps)
            && FlatMap(CallsOf, u.steps) == ForgetCalls(FlatMap(CallsOf, t.steps), now)
            && (MetricsOf(u.steps, m) <==> MetricsOf(t.steps, m))
            && forall c :: c in FlatMap(CallsOf, u.steps) ==> c.DurationMs() == c.latencyMs
  {
    RoundTrip(t, now);
    StepsKeep(t.steps, ForgetTimes(t, now).steps, now, m);
  }
}
