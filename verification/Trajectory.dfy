/** The trajectory aggregate: the record of one agent run, what is read off it,
    and its metrics (backend/app/agents/domain/trajectory.py). */
module Trajectory {
  import opened Wrappers
  import opened Collections
  import opened Text
  import opened ToolExecution

  datatype StepType = LlmCallStep | ToolCallStep | ToolResultStep | ReasoningStep | FinalAnswerStep | ErrorStep

  datatype Status = Completed | FailedStatus | Timeout | BudgetExhausted | MaxStepsReached | Cancelled

  /** Instants, in milliseconds. */
  type Time = int

  datatype ToolCallRecord = ToolCallRecord(
    toolCallId: string, toolName: string, arguments: Json, text: string, isError: bool,
    latencyMs: int, startedAt: Time, completedAt: Option<Time>)
  {
    function DurationMs(): int {
      if completedAt.None? then latencyMs else completedAt.value - startedAt
    }
  }

  datatype LlmCallRecord = LlmCallRecord(
    provider: string, model: string, messagesSent: nat, responseContent: string,
    toolCallsRequested: seq<ToolCallRecord>, tokensInput: int, tokensOutput: int, costUsd: real,
    latencyMs: int, finishReason: string, startedAt: Time, completedAt: Option<Time>)

  datatype Step = Step(
    stepIndex: int, stepType: StepType, llmCall: Option<LlmCallRecord>, toolCall: Option<ToolCallRecord>,
    content: string, reasoning: string, error: Option<string>, timestamp: Time)
  {
    predicate IsError() {
      error.Some? || stepType == ErrorStep
    }
  }

  datatype Metrics = Metrics(
    totalSteps: int, llmCalls: int, toolCalls: int, toolResults: int, errors: int,
    totalTokensInput: int, totalTokensOutput: int, totalCostUsd: real, totalDurationMs: int,
    uniqueToolsUsed: seq<string>, toolErrorRate: real, averageLlmLatencyMs: real, averageToolLatencyMs: real)

  const NO_METRICS := Metrics(0, 0, 0, 0, 0, 0, 0, 0.0, 0, [], 0.0, 0.0, 0.0)

  /** An entry of the recorded conversation; only an LLM turn has a call list. */
  datatype HistoryEntry =
    | AssistantTurn(content: string, calls: Option<seq<ToolCallRecord>>)
    | ToolTurn(toolCallId: string, content: string)

  datatype Trajectory = Trajectory(
    trajectoryId: string, runId: string, agentName: string, taskDescription: string, status: Status,
    steps: seq<Step>, metrics: Metrics, history: seq<HistoryEntry>,
    startedAt: Time, completedAt: Option<Time>, error: Option<string>, metadata: map<string, Json>)

  // ----- The final response -----

  /** What a step answers, when it is one that can end a run. */
  function AnswerOf(step: Step): Option<string> {
    if step.stepType == FinalAnswerStep then Some(step.content)
    else if step.stepType == LlmCallStep && step.llmCall.Some? && step.llmCall.value.toolCallsRequested == []
    then Some(step.llmCall.value.responseContent)
    else None
  }

  /** The answer of the last answering step, or the empty string. */
  function FinalResponse(steps: seq<Step>): string {
    if steps == [] then ""
    else if AnswerOf(steps[|steps| - 1]).Some? then AnswerOf(steps[|steps| - 1]).value
    else FinalResponse(steps[..|steps| - 1])
  }

  /** The step is a final answer, or an LLM call that requests no tools. */
  predicate Answers(step: Step) {
    || step.stepType.FinalAnswerStep?
    || (step.stepType.LlmCallStep? && step.llmCall.Some? && |step.llmCall.value.toolCallsRequested| == 0)
  }

  /** With this text. */
  predicate AnswersWith(step: Step, text: string) {
    Answers(step) && text == if step.stepType.FinalAnswerStep? then step.content else step.llmCall.value.responseContent
  }

  lemma AnswerMeans(step: Step)
    ensures AnswerOf(step).Some? <==> Answers(step)
    ensures Answers(step) ==> AnswersWith(step, AnswerOf(step).value)
  {
  }

  /** The text of the last step that answers, or nothing. */
  method FindFinalResponse(steps: seq<Step>) returns (r: string)
    ensures r == FinalResponse(steps)
    ensures (r == "" && forall j :: 0 <= j < |steps| ==> !Answers(steps[j]))
         || exists i :: 0 <= i < |steps| && AnswersWith(steps[i], r)
                        && forall j :: i < j < |steps| ==> !Answers(steps[j])
  {
    var i := |steps|;
    assert steps[..i] == steps;
    while i > 0
      invariant 0 <= i <= |steps|
      invariant forall j :: i <= j < |steps| ==> !Answers(steps[j])
      invariant FinalResponse(steps) == FinalResponse(steps[..i])
    {
      i := i - 1;
      var step := steps[i];
      assert steps[..i + 1][..i] == steps[..i];
      AnswerMeans(step);
      if step.stepType == FinalAnswerStep {
        return step.content;
      }
      if step.stepType == LlmCallStep && step.llmCall.Some? && step.llmCall.value.toolCallsRequested == [] {
        return step.llmCall.value.responseContent;
      }
    }
    r := "";
  }

  // ----- Tool calls -----

  /** The calls of one step: the one it executed, then those it requested. */
  function CallsOf(step: Step): seq<ToolCallRecord> {
    (if step.toolCall.Some? then [step.toolCall.value] else [])
    + if step.llmCall.Some? then step.llmCall.value.toolCallsRequested else []
  }

  method AllToolCalls(steps: seq<Step>) returns (calls: seq<ToolCallRecord>)
    ensures calls == FlatMap(CallsOf, steps)
  {
    calls := [];
    for i := 0 to |steps|
      invariant calls == FlatMap(CallsOf, steps[..i])
    {
      assert steps[..i + 1][..i] == steps[..i];
      var step := steps[i];
      ghost var before := calls;
      if step.toolCall.Some? {
        calls := calls + [step.toolCall.value];
      }
      if step.llmCall.Some? {
        calls := calls + step.llmCall.value.toolCallsRequested;
      }
      assert calls == before + CallsOf(step);
    }
    assert steps[..|steps|] == steps;
  }

  ghost function NamesOf(calls: seq<ToolCallRecord>): set<string> {
    set call | call in calls :: call.toolName
  }

  // ----- Metrics, field by field -----

  function LlmCount(step: Step): int { if step.llmCall.Some? then 1 else 0 }
  function ToolCount(step: Step): int { if step.toolCall.Some? then 1 else 0 }
  function ErrorCount(step: Step): int { if step.IsError() then 1 else 0 }
  function ToolErrorCount(step: Step): int { if step.toolCall.Some? && step.toolCall.value.isError then 1 else 0 }
  function TokensIn(step: Step): int { if step.llmCall.Some? then step.llmCall.value.tokensInput else 0 }
  function TokensOut(step: Step): int { if step.llmCall.Some? then step.llmCall.value.tokensOutput else 0 }
  function CostOf(step: Step): real { if step.llmCall.Some? then step.llmCall.value.costUsd else 0.0 }
  function LlmLatency(step: Step): int { if step.llmCall.Some? then step.llmCall.value.latencyMs else 0 }
  function ToolLatency(step: Step): int { if step.toolCall.Some? then step.toolCall.value.latencyMs else 0 }

  /** A quotient that is zero when there is nothing to divide by. */
  function Ratio(total: int, count: int): real {
    if count == 0 then 0.0 else total as real / count as real
  }

  /** The metrics of a list of steps: every field as an independent sum, the tool
      names as the sorted set of all names in the tool calls. */
  ghost predicate MetricsOf(steps: seq<Step>, m: Metrics) {
    && m.totalSteps == |steps|
    && m.llmCalls == Sum(LlmCount, steps)
    && m.toolCalls == m.toolResults == Sum(ToolCount, steps)
    && m.errors == Sum(ErrorCount, steps)
    && m.totalTokensInput == Sum(TokensIn, steps)
    && m.totalTokensOutput == Sum(TokensOut, steps)
    && m.totalCostUsd == SumReal(CostOf, steps)
    && m.totalDurationMs == (if steps == [] then 0 else steps[|steps| - 1].timestamp - steps[0].timestamp)
    && IsSortedSet(m.uniqueToolsUsed, NamesOf(FlatMap(CallsOf, steps)))
    && m.toolErrorRate == Ratio(Sum(ToolErrorCount, steps), Sum(ToolCount, steps))
    && m.averageLlmLatencyMs == Ratio(Sum(LlmLatency, steps), Sum(LlmCount, steps))
    && m.averageToolLatencyMs == Ratio(Sum(ToolLatency, steps), Sum(ToolCount, steps))
  }


  method ToolNames(calls: seq<ToolCallRecord>) returns (names: set<string>)
    ensures names == NamesOf(calls)
  {
    names := {};
    for i := 0 to |calls|
      invariant names == NamesOf(calls[..i])
    {
      names := names + {calls[i].toolName};
      assert calls[..i + 1] == calls[..i] + [calls[i]];
    }
    assert calls[..|calls|] == calls;
  }

  lemma NamesConcat(a: seq<ToolCallRecord>, b: seq<ToolCallRecord>)
    ensures NamesOf(a + b) == NamesOf(a) + NamesOf(b)
  {
    assert forall call :: call in a + b <==> call in a || call in b;
  }

  /** What one more step adds to each fold. */
  lemma OneMoreStep(steps: seq<Step>, i: nat)
    requires i < |steps|
    ensures Sum(LlmCount, steps[..i + 1]) == Sum(LlmCount, steps[..i]) + LlmCount(steps[i])
    ensures Sum(ToolCount, steps[..i + 1]) == Sum(ToolCount, steps[..i]) + ToolCount(steps[i])
    ensures Sum(ErrorCount, steps[..i + 1]) == Sum(ErrorCount, steps[..i]) + ErrorCount(steps[i])
    ensures Sum(ToolErrorCount, steps[..i + 1]) == Sum(ToolErrorCount, steps[..i]) + ToolErrorCount(steps[i])
    ensures Sum(TokensIn, steps[..i + 1]) == Sum(TokensIn, steps[..i]) + TokensIn(steps[i])
    ensures Sum(TokensOut, steps[..i + 1]) == Sum(TokensOut, steps[..i]) + TokensOut(steps[i])
    ensures SumReal(CostOf, steps[..i + 1]) == SumReal(CostOf, steps[..i]) + CostOf(steps[i])
    ensures Sum(LlmLatency, steps[..i + 1]) == Sum(LlmLatency, steps[..i]) + LlmLatency(steps[i])
    ensures Sum(ToolLatency, steps[..i + 1]) == Sum(ToolLatency, steps[..i]) + ToolLatency(steps[i])
    ensures NamesOf(FlatMap(CallsOf, steps[..i + 1]))
         == NamesOf(FlatMap(CallsOf, steps[..i])) + NamesOf(CallsOf(steps[i]))
  {
    assert steps[..i + 1][..i] == steps[..i];
    NamesConcat(FlatMap(CallsOf, steps[..i]), CallsOf(steps[i]));
  }

  lemma NamesOfStep(step: Step)
    ensures NamesOf(CallsOf(step))
         == (if step.toolCall.Some? then {step.toolCall.value.toolName} else {})
          + if step.llmCall.Some? then NamesOf(step.llmCall.value.toolCallsRequested) else {}
  {
    var executed := if step.toolCall.Some? then [step.toolCall.value] else [];
    NamesConcat(executed, if step.llmCall.Some? then step.llmCall.value.toolCallsRequested else []);
    assert NamesOf(executed) == if step.toolCall.Some? then {step.toolCall.value.toolName} else {};
  }

  /** The tools a step requests and the one it runs. */
  method ToolsOf(step: Step) returns (names: set<string>)
    ensures names == NamesOf(CallsOf(step))
  {
    NamesOfStep(step);
    names := {};
    if step.llmCall.Some? {
      names := ToolNames(step.llmCall.value.toolCallsRequested);
    }
    if step.toolCall.Some? {
      names := names + {step.toolCall.value.toolName};
    }
  }

  /** The loop over the steps. */
  method Accumulate(steps: seq<Step>)
    returns (llmCalls: int, toolCalls: int, toolResults: int, errors: int, toolErrors: int,
             tokensInput: int, tokensOutput: int, costUsd: real,
             llmLatencies: seq<int>, toolLatencies: seq<int>, toolsUsed: set<string>)
    ensures llmCalls == |llmLatencies| == Sum(LlmCount, steps)
    ensures toolCalls == toolResults == |toolLatencies| == Sum(ToolCount, steps)
    ensures errors == Sum(ErrorCount, steps) && toolErrors == Sum(ToolErrorCount, steps)
    ensures tokensInput == Sum(TokensIn, steps) && tokensOutput == Sum(TokensOut, steps)
    ensures costUsd == SumReal(CostOf, steps)
    ensures Sum(Identity, llmLatencies) == Sum(LlmLatency, steps)
    ensures Sum(Identity, toolLatencies) == Sum(ToolLatency, steps)
    ensures toolsUsed == NamesOf(FlatMap(CallsOf, steps))
  {
    llmCalls, toolCalls, toolResults, errors := 0, 0, 0, 0;
    tokensInput, tokensOutput, costUsd := 0, 0, 0.0;
    llmLatencies, toolLatencies := [], [];
    toolsUsed := {};
    toolErrors := 0;
    for i := 0 to |steps|
      invariant llmCalls == |llmLatencies| == Sum(LlmCount, steps[..i])
      invariant toolCalls == toolResults == |toolLatencies| == Sum(ToolCount, steps[..i])
      invariant errors == Sum(ErrorCount, steps[..i])
      invariant toolErrors == Sum(ToolErrorCount, steps[..i])
      invariant tokensInput == Sum(TokensIn, steps[..i])
      invariant tokensOutput == Sum(TokensOut, steps[..i])
      invariant costUsd == SumReal(CostOf, steps[..i])
      invariant Sum(Identity, llmLatencies) == Sum(LlmLatency, steps[..i])
      invariant Sum(Identity, toolLatencies) == Sum(ToolLatency, steps[..i])
      invariant toolsUsed == NamesOf(FlatMap(CallsOf, steps[..i]))
    {
      var step := steps[i];
      OneMoreStep(steps, i);
      if step.IsError() {
        errors := errors + 1;
      }
      if step.llmCall.Some? {
        var call := step.llmCall.value;
        llmCalls := llmCalls + 1;
        tokensInput := tokensInput + call.tokensInput;
        tokensOutput := tokensOutput + call.tokensOutput;
        costUsd := costUsd + call.costUsd;
        SumSnoc(Identity, llmLatencies, call.latencyMs);
        llmLatencies := llmLatencies + [call.latencyMs];
      }
      if step.toolCall.Some? {
        toolCalls := toolCalls + 1;
        toolResults := toolResults + 1;
        SumSnoc(Identity, toolLatencies, step.toolCall.value.latencyMs);
        toolLatencies := toolLatencies + [step.toolCall.value.latencyMs];
        if step.toolCall.value.isError {
          toolErrors := toolErrors + 1;
        }
      }
      var names := ToolsOf(step);
      toolsUsed := toolsUsed + names;
    }
    assert steps[..|steps|] == steps;
  }

  /** `sum(xs)` */
  function SumOf(xs: seq<int>): int { Sum(Identity, xs) }

  method ComputeTrajectoryMetrics(steps: seq<Step>) returns (m: Metrics)
    ensures MetricsOf(steps, m)
  {
    if steps == [] {
      return NO_METRICS;
    }
    var llmCalls, toolCalls, toolResults, errors, toolErrors, tokensInput, tokensOutput, costUsd,
        llmLatencies, toolLatencies, toolsUsed := Accumulate(steps);
    var names := Sorted(toolsUsed);
    m := Metrics(|steps|, llmCalls, toolCalls, toolResults, errors, tokensInput, tokensOutput, costUsd,
                 steps[|steps| - 1].timestamp - steps[0].timestamp, names,
                 Ratio(toolErrors, toolCalls),
                 Ratio(SumOf(llmLatencies), |llmLatencies|),
                 Ratio(SumOf(toolLatencies), |toolLatencies|));
  }

  // ----- Laws of the metrics -----

  /** The metrics are determined by the steps. */
  lemma MetricsUnique(steps: seq<Step>, m: Metrics, n: Metrics)
    requires MetricsOf(steps, m) && MetricsOf(steps, n)
    ensures m == n
  {
    SortedSetUnique(m.uniqueToolsUsed, n.uniqueToolsUsed, NamesOf(FlatMap(CallsOf, steps)));
  }

  lemma {:induction false} CountBounds(steps: seq<Step>)
    ensures 0 <= Sum(ToolErrorCount, steps) <= Sum(ToolCount, steps) <= |steps|
    ensures 0 <= Sum(LlmCount, steps) <= |steps|
    ensures 0 <= Sum(ErrorCount, steps) <= |steps|
    ensures Sum(LlmCount, steps) == 0 ==> Sum(LlmLatency, steps) == 0
    ensures Sum(ToolCount, steps) == 0 ==> Sum(ToolLatency, steps) == 0
  {
    if steps == [] {
    } else {
      CountBounds(steps[..|steps| - 1]);
    }
  }

  lemma RatioTimes(total: int, count: int)
    requires count == 0 ==> total == 0
    ensures Ratio(total, count) * count as real == total as real
  {
  }

  lemma RatioBounds(part: int, whole: int)
    requires 0 <= part <= whole
    ensures 0.0 <= Ratio(part, whole) <= 1.0
  {
  }

  lemma {:induction false} DistinctSize(names: seq<string>)
    requires StrictlySorted(names)
    ensures |Elements(names)| == |names|
  {
    if names != [] {
      TailElements(names);
      DistinctSize(names[1..]);
      assert Elements(names) == Elements(names[1..]) + {names[0]};
    } else {
      assert Elements(names) == {};
    }
  }

  lemma {:induction false} NamesSize(calls: seq<ToolCallRecord>)
    ensures |NamesOf(calls)| <= |calls|
  {
    if calls == [] {
      assert NamesOf(calls) == {};
    } else {
      NamesSize(calls[1..]);
      assert calls == [calls[0]] + calls[1..];
      NamesConcat([calls[0]], calls[1..]);
      assert NamesOf([calls[0]]) == {calls[0].toolName};
    }
  }

  lemma {:induction false} SortedSetSize(names: seq<string>, calls: seq<ToolCallRecord>)
    requires IsSortedSet(names, NamesOf(calls))
    ensures |names| <= |calls|
  {
    DistinctSize(names);
    NamesSize(calls);
  }

  lemma MetricsBounds(steps: seq<Step>, m: Metrics)
    requires MetricsOf(steps, m)
    ensures m.toolResults == m.toolCalls
    ensures 0 <= m.errors <= m.totalSteps
    ensures 0.0 <= m.toolErrorRate <= 1.0
    ensures |m.uniqueToolsUsed| <= |FlatMap(CallsOf, steps)|
  {
    CountBounds(steps);
    RatioBounds(Sum(ToolErrorCount, steps), Sum(ToolCount, steps));
    SortedSetSize(m.uniqueToolsUsed, FlatMap(CallsOf, steps));
  }

  lemma {:induction false} NoneCounted(f: Step -> int, steps: seq<Step>)
    requires forall s :: 0 <= f(s) <= 1
    ensures Sum(f, steps) == 0 <==> forall s :: s in steps ==> f(s) == 0
    ensures Sum(f, steps) == |steps| <==> forall s :: s in steps ==> f(s) == 1
    ensures 0 <= Sum(f, steps) <= |steps|
  {
    if steps == [] {
    } else {
      var n := |steps| - 1;
      NoneCounted(f, steps[..n]);
      assert forall s :: s in steps <==> s in steps[..n] || s == steps[n];
    }
  }

  /** What the counts say about the steps: no errors means that no step has one or is
      one, no calls that there are none, and no failed ones that none failed. */
  lemma CountsMean(steps: seq<Step>, m: Metrics)
    requires MetricsOf(steps, m)
    ensures m.errors == 0 <==> forall s :: s in steps ==> s.error.None? && s.stepType != ErrorStep
    ensures m.errors == m.totalSteps <==> forall s :: s in steps ==> s.error.Some? || s.stepType == ErrorStep
    ensures m.llmCalls == 0 <==> forall s :: s in steps ==> s.llmCall.None?
    ensures m.toolCalls == 0 <==> forall s :: s in steps ==> s.toolCall.None?
    ensures m.toolErrorRate == 0.0 <==> forall s :: s in steps && s.toolCall.Some? ==> !s.toolCall.value.isError
  {
    NoneCounted(ErrorCount, steps);
    NoneCounted(LlmCount, steps);
    NoneCounted(ToolCount, steps);
    NoneCounted(ToolErrorCount, steps);
    CountBounds(steps);
    assert (forall s :: s in steps ==> ToolErrorCount(s) == 0) <==>
             forall s :: s in steps && s.toolCall.Some? ==> !s.toolCall.value.isError;
    RatioZero(Sum(ToolErrorCount, steps), Sum(ToolCount, steps));
  }

  lemma RatioZero(part: int, whole: int)
    requires 0 <= part <= whole
    ensures Ratio(part, whole) == 0.0 <==> part == 0
  {
    RatioTimes(part, whole);
  }

  lemma Distributes(a: int, b: int, k: int)
    ensures (a + b) * k == a * k + b * k
  {
  }

  lemma {:induction false} SumWithin(total: Step -> int, count: Step -> int, steps: seq<Step>, low: int, high: int)
    requires forall s :: s in steps ==> count(s) * low <= total(s) <= count(s) * high
    ensures Sum(count, steps) * low <= Sum(total, steps) <= Sum(count, steps) * high
  {
    if steps == [] {
    } else {
      var n := |steps| - 1;
      assert forall s :: s in steps[..n] ==> s in steps;
      SumWithin(total, count, steps[..n], low, high);
      assert steps[n] in steps;
      Distributes(Sum(count, steps[..n]), count(steps[n]), low);
      Distributes(Sum(count, steps[..n]), count(steps[n]), high);
    }
  }

  lemma RatioWithin(total: int, count: int, low: int, high: int)
    requires count > 0 && count * low <= total <= count * high
    ensures low as real <= Ratio(total, count) <= high as real
  {
    var c, l, h := count as real, low as real, high as real;
    assert (count * low) as real == c * l && (count * high) as real == c * h;
    assert Ratio(total, count) * c == total as real;
  }

  /** Every LLM call of the steps has this value between two bounds. */
  ghost predicate LlmWithin(steps: seq<Step>, value: LlmCallRecord -> int, low: int, high: int) {
    forall s :: s in steps && s.llmCall.Some? ==> low <= value(s.llmCall.value) <= high
  }

  ghost predicate ToolWithin(steps: seq<Step>, value: ToolCallRecord -> int, low: int, high: int) {
    forall s :: s in steps && s.toolCall.Some? ==> low <= value(s.toolCall.value) <= high
  }

  /** Bounds on the latencies of the calls bound their averages. */
  lemma AveragesWithin(steps: seq<Step>, m: Metrics, low: int, high: int)
    requires MetricsOf(steps, m)
    ensures LlmWithin(steps, (c: LlmCallRecord) => c.latencyMs, low, high) && m.llmCalls > 0 ==>
              low as real <= m.averageLlmLatencyMs <= high as real
    ensures ToolWithin(steps, (c: ToolCallRecord) => c.latencyMs, low, high) && m.toolCalls > 0 ==>
              low as real <= m.averageToolLatencyMs <= high as real
  {
    if LlmWithin(steps, (c: LlmCallRecord) => c.latencyMs, low, high) && m.llmCalls > 0 {
      SumWithin(LlmLatency, LlmCount, steps, low, high);
      RatioWithin(Sum(LlmLatency, steps), m.llmCalls, low, high);
    }
    if ToolWithin(steps, (c: ToolCallRecord) => c.latencyMs, low, high) && m.toolCalls > 0 {
      SumWithin(ToolLatency, ToolCount, steps, low, high);
      RatioWithin(Sum(ToolLatency, steps), m.toolCalls, low, high);
    }
  }

  /** Bounds on their tokens bound the totals. */
  lemma TokensWithin(steps: seq<Step>, m: Metrics, low: int, high: int)
    requires MetricsOf(steps, m)
    ensures LlmWithin(steps, (c: LlmCallRecord) => c.tokensInput, low, high) ==>
              m.llmCalls * low <= m.totalTokensInput <= m.llmCalls * high
    ensures LlmWithin(steps, (c: LlmCallRecord) => c.tokensOutput, low, high) ==>
              m.llmCalls * low <= m.totalTokensOutput <= m.llmCalls * high
  {
    if LlmWithin(steps, (c: LlmCallRecord) => c.tokensInput, low, high) {
      SumWithin(TokensIn, LlmCount, steps, low, high);
    }
    if LlmWithin(steps, (c: LlmCallRecord) => c.tokensOutput, low, high) {
      SumWithin(TokensOut, LlmCount, steps, low, high);
    }
  }

  lemma {:induction false} CostsAddUp(steps: seq<Step>)
    requires forall s :: s in steps && s.llmCall.Some? ==> s.llmCall.value.costUsd >= 0.0
    ensures SumReal(CostOf, steps) >= 0.0
    ensures forall s :: s in steps && s.llmCall.Some? ==> s.llmCall.value.costUsd <= SumReal(CostOf, steps)
    ensures (forall s :: s in steps && s.llmCall.Some? ==> s.llmCall.value.costUsd == 0.0) ==>
              SumReal(CostOf, steps) == 0.0
  {
    if steps == [] {
    } else {
      var n := |steps| - 1;
      assert forall s :: s in steps <==> s in steps[..n] || s == steps[n];
      CostsAddUp(steps[..n]);
    }
  }

  /** When no call has a negative cost, the total is at least that of each call, and zero
      if and only if none costs anything. */
  lemma CostBounds(steps: seq<Step>, m: Metrics)
    requires MetricsOf(steps, m)
    requires forall s :: s in steps && s.llmCall.Some? ==> s.llmCall.value.costUsd >= 0.0
    ensures forall s :: s in steps && s.llmCall.Some? ==> s.llmCall.value.costUsd <= m.totalCostUsd
    ensures m.totalCostUsd == 0.0 <==> forall s :: s in steps && s.llmCall.Some? ==> s.llmCall.value.costUsd == 0.0
  {
    CostsAddUp(steps);
  }

  /** With instants that do not go back, the duration is the longest time between two
      steps. */
  lemma DurationIsLongest(steps: seq<Step>, m: Metrics)
    requires MetricsOf(steps, m) && forall i, j :: 0 <= i < j < |steps| ==> steps[i].timestamp <= steps[j].timestamp
    ensures forall i, j :: 0 <= i <= j < |steps| ==> steps[j].timestamp - steps[i].timestamp <= m.totalDurationMs
    ensures steps != [] ==> exists s, t :: s in steps && t in steps && t.timestamp - s.timestamp == m.totalDurationMs
  {
    if steps != [] { assert steps[0] in steps && steps[|steps| - 1] in steps; }
  }

  /** Metrics compose: the counts, tokens and cost of a concatenation add up, its
      tool names are the union. */
  lemma MetricsConcat(s: seq<Step>, t: seq<Step>, ms: Metrics, mt: Metrics, m: Metrics)
    requires MetricsOf(s, ms) && MetricsOf(t, mt) && MetricsOf(s + t, m)
    ensures m.totalSteps == ms.totalSteps + mt.totalSteps
    ensures m.llmCalls == ms.llmCalls + mt.llmCalls
    ensures m.toolCalls == ms.toolCalls + mt.toolCalls
    ensures m.errors == ms.errors + mt.errors
    ensures m.totalTokensInput == ms.totalTokensInput + mt.totalTokensInput
    ensures m.totalTokensOutput == ms.totalTokensOutput + mt.totalTokensOutput
    ensures m.totalCostUsd == ms.totalCostUsd + mt.totalCostUsd
    ensures Elements(m.uniqueToolsUsed) == Elements(ms.uniqueToolsUsed) + Elements(mt.uniqueToolsUsed)
  {
    SumConcat(LlmCount, s, t);
    SumConcat(ToolCount, s, t);
    SumConcat(ErrorCount, s, t);
    SumConcat(TokensIn, s, t);
    SumConcat(TokensOut, s, t);
    SumRealConcat(CostOf, s, t);
    FlatMapConcat(CallsOf, s, t);
    NamesConcat(FlatMap(CallsOf, s), FlatMap(CallsOf, t));
  }

  /** The average `avg` of `n` values is the weighted mean of two others. */
  ghost predicate Combines(avg: real, n: int, avgS: real, nS: int, avgT: real, nT: int) {
    avg * n as real == avgS * nS as real + avgT * nT as real
  }

  lemma RatiosCombine(a: int, nA: int, b: int, nB: int)
    requires (nA == 0 ==> a == 0) && (nB == 0 ==> b == 0) && (nA + nB == 0 ==> a + b == 0)
    ensures Combines(Ratio(a + b, nA + nB), nA + nB, Ratio(a, nA), nA, Ratio(b, nB), nB)
  {
    RatioTimes(a, nA);
    RatioTimes(b, nB);
    RatioTimes(a + b, nA + nB);
  }

  /** Averages compose by weight: the average of `total` per `count` over a
      concatenation, times its count, is the sum of the two parts' products. */
  lemma AverageConcat(total: Step -> int, count: Step -> int, s: seq<Step>, t: seq<Step>)
    requires (Sum(count, s) == 0 ==> Sum(total, s) == 0) && (Sum(count, t) == 0 ==> Sum(total, t) == 0)
    requires Sum(count, s + t) == 0 ==> Sum(total, s + t) == 0
    ensures Combines(Ratio(Sum(total, s + t), Sum(count, s + t)), Sum(count, s + t),
                     Ratio(Sum(total, s), Sum(count, s)), Sum(count, s),
                     Ratio(Sum(total, t), Sum(count, t)), Sum(count, t))
  {
    var a, nA, b, nB := Sum(total, s), Sum(count, s), Sum(total, t), Sum(count, t);
    SumConcat(total, s, t);
    SumConcat(count, s, t);
    RatiosCombine(a, nA, b, nB);
  }

  lemma AveragesConcat(s: seq<Step>, t: seq<Step>, ms: Metrics, mt: Metrics, m: Metrics)
    requires MetricsOf(s, ms) && MetricsOf(t, mt) && MetricsOf(s + t, m)
    ensures Combines(m.averageLlmLatencyMs, m.llmCalls,
                     ms.averageLlmLatencyMs, ms.llmCalls, mt.averageLlmLatencyMs, mt.llmCalls)
    ensures Combines(m.averageToolLatencyMs, m.toolCalls,
                     ms.averageToolLatencyMs, ms.toolCalls, mt.averageToolLatencyMs, mt.toolCalls)
    ensures Combines(m.toolErrorRate, m.toolCalls,
                     ms.toolErrorRate, ms.toolCalls, mt.toolErrorRate, mt.toolCalls)
  {
    CountBounds(s);
    CountBounds(t);
    CountBounds(s + t);
    AverageConcat(LlmLatency, LlmCount, s, t);
    AverageConcat(ToolLatency, ToolCount, s, t);
    AverageConcat(ToolErrorCount, ToolCount, s, t);
  }
}
