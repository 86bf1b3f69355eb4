/** The agent loop (backend/app/agents/runtime/agent_loop.py): a conversation
    between a provider and tools under a step budget, with cancellation checks
    and failure exits.  `Step` is one transition of the loop as a state machine,
    `Final` runs it to the end, and `AgentLoop.Execute` is the loop itself, proved
    to end in the state `Final` describes. */
module AgentLoop {
  import opened Wrappers
  import opened Collections
  import opened ToolExecution
  import T = Trajectory
  import opened TrajectoryRecorder

  // ----- Messages -----

  datatype ToolCall = ToolCall(id: string, name: string, arguments: string)

  /** An entry of the loop's own message list. */
  datatype Message =
    | System(content: string)
    | User(content: string)
    | Assistant(content: string, toolCalls: seq<ToolCall>)
    | Tool(toolCallId: string, content: string)

  /** What the provider is sent for it: `_dict_to_message` has no place for the
      calls of an assistant message. */
  datatype SentMessage =
    | Plain(role: string, content: string)
    | ToolAnswer(toolCallId: string, content: string)

  function DictToMessage(m: Message): SentMessage {
    match m
    case System(content) => Plain("system", content)
    case User(content) => Plain("user", content)
    case Assistant(content, _) => Plain("assistant", content)
    case Tool(id, content) => ToolAnswer(id, content)
  }

  // ----- The environment -----

  datatype Response = Response(
    content: string, toolCalls: seq<ToolCall>, inputTokens: int, outputTokens: int, costUsd: real,
    provider: string, model: string, finishReason: string)

  datatype Reply = Responded(response: Response) | ProviderThrew(message: string)

  /** What `json.loads` comes to: a value, a `JSONDecodeError`, or another exception,
      such as the one for nesting too deep. */
  datatype Decoded = Value(json: Json) | Malformed(message: string) | Unreadable(message: string)

  /** Everything the loop does not decide.  `provider` and the tools may answer
      differently at every call; `cancelled(t)` is the cancel flag after `t`
      events of the run, `now(t)` and `elapsed(t)` the clock readings there. */
  datatype Env = Env(
    maxSteps: int, systemPrompt: string, userMessage: string,
    supportsTools: bool, supportsChat: bool,
    provider: (nat, seq<SentMessage>) -> Reply,
    decode: string -> Decoded,
    tools: map<string, ToolDefinition>, functions: map<string, ToolFunction>,
    cancelled: nat -> bool, now: nat -> T.Time, elapsed: nat -> int)

  /** What a run does, in order.  A provider call carries the message list at
      that moment, and what the provider is sent for it. */
  datatype Event =
    | Checked(set_: bool)
    | Called(messages: seq<Message>, sent: seq<SentMessage>)
    | Ran(call: ToolCall)

  // ----- Results and states -----

  datatype LoopResult = LoopResult(
    success: bool, finalResponse: string, totalSteps: nat, totalLlmCalls: nat, totalToolCalls: nat,
    totalTokensInput: int, totalTokensOutput: int, totalCostUsd: real, error: Option<string>, status: T.Status)

  /** The loop's variables.  `pending` holds the calls of the current response
      that have not been executed; `recording` is None without a recorder. */
  datatype State = State(
    messages: seq<Message>, pending: seq<ToolCall>,
    steps: nat, llmCalls: nat, toolCalls: nat, tokensInput: int, tokensOutput: int, cost: real,
    trace: seq<Event>, recording: Option<Recording>, result: Option<LoopResult>)

  function Prefix(env: Env): seq<Message> {
    (if env.systemPrompt != "" then [System(env.systemPrompt)] else []) + [User(env.userMessage)]
  }

  function Initial(env: Env, recording: Option<Recording>): State {
    State(Prefix(env), [], 0, 0, 0, 0, 0, 0.0, [], recording, None)
  }

  // ----- Ends of a run -----

  function ResultOf(s: State, success: bool, response: string, error: Option<string>, status: T.Status): LoopResult {
    LoopResult(success, response, s.steps, s.llmCalls, s.toolCalls, s.tokensInput, s.tokensOutput, s.cost, error,
               status)
  }

  function Completes(s: State, response: string, now: T.Time): State {
    s.(recording := if s.recording.Some? then Some(s.recording.value.WithFinalAnswer(response, now)) else None,
       result := Some(ResultOf(s, true, response, None, T.Completed)))
  }

  function Cancels(s: State): State {
    s.(recording := if s.recording.Some? then Some(s.recording.value.WithStatus(T.Cancelled)) else None,
       result := Some(ResultOf(s, false, "", Some("Agent run cancelled"), T.Cancelled)))
  }

  function ExhaustsSteps(s: State): State {
    s.(recording := if s.recording.Some? then Some(s.recording.value.WithStatus(T.MaxStepsReached)) else None,
       result := Some(ResultOf(s, false, "", Some("Maximum steps reached without final answer"), T.MaxStepsReached)))
  }

  function Fails(s: State, message: string): State {
    s.(recording := if s.recording.Some? then Some(s.recording.value.WithFailure(message)) else None,
       result := Some(ResultOf(s, false, "", Some(message), T.FailedStatus)))
  }

  // ----- One transition -----

  /** `json.loads(tc.arguments) if tc.arguments else {}` */
  function Decode(env: Env, arguments: string): Decoded {
    if arguments == "" then Value(Object(map[])) else env.decode(arguments)
  }

  predicate Decodes(env: Env, call: ToolCall) {
    Decode(env, call.arguments).Value?
  }

  /** The arguments the tool is run with: malformed JSON counts as no arguments. */
  function ArgumentsOf(env: Env, call: ToolCall): Json {
    if Decodes(env, call) then Decode(env, call.arguments).json else Object(map[])
  }

  function After<X>(records: seq<X>, r: Result<seq<X>>): Result<seq<X>> {
    match r
    case Raise(m) => Raise(m)
    case Ok(rest) => Ok(records + rest)
  }

  /** The records of the requested calls, or the error of the first whose
      arguments do not decode. */
  function RequestedRecords(env: Env, calls: seq<ToolCall>, now: T.Time): Result<seq<T.ToolCallRecord>> {
    if calls == [] then Ok([])
    else
      match Decode(env, calls[0].arguments)
      case Malformed(m) => Raise(m)
      case Unreadable(m) => Raise(m)
      case Value(json) =>
        After([T.ToolCallRecord(calls[0].id, calls[0].name, json, "", false, 0, now, None)],
              RequestedRecords(env, calls[1..], now))
  }

  function LlmRecord(r: Response, messagesSent: nat, requested: seq<T.ToolCallRecord>, elapsed: int, now: T.Time)
    : T.LlmCallRecord
  {
    T.LlmCallRecord(r.provider, r.model, messagesSent, r.content, requested, r.inputTokens, r.outputTokens, 0.0,
                    elapsed, r.finishReason, now, Some(now))
  }

  /** The counters after a response has arrived. */
  function Counted(s: State, r: Response): State {
    s.(llmCalls := s.llmCalls + 1, tokensInput := s.tokensInput + r.inputTokens,
       tokensOutput := s.tokensOutput + r.outputTokens, cost := s.cost + r.costUsd)
  }

  /** The recorder's part of a response: decoding can fail here. */
  function Recorded(env: Env, s: State, r: Response): Result<Option<Recording>> {
    if s.recording.None? then Ok(None)
    else
      var now := env.now(|s.trace|);
      match RequestedRecords(env, r.toolCalls, now)
      case Raise(m) => Raise(m)
      case Ok(requested) =>
        var call := LlmRecord(r, |s.messages|, requested, env.elapsed(|s.trace|), now);
        Ok(Some(s.recording.value.WithLlmCall(call, "", now)))
  }

  /** A response without calls is the final answer; otherwise a round begins. */
  function Proceed(env: Env, s: State, r: Response): State {
    if r.toolCalls == [] then Completes(s, r.content, env.now(|s.trace|))
    else s.(messages := s.messages + [Assistant(r.content, r.toolCalls)], pending := r.toolCalls)
  }

  function AfterRecording(env: Env, s: State, r: Response, recorded: Result<Option<Recording>>): State {
    match recorded
    case Raise(m) => Fails(s, m)
    case Ok(recording) => Proceed(env, s.(recording := recording), r)
  }

  function AfterReply(env: Env, s: State, reply: Reply): State {
    match reply
    case ProviderThrew(m) => Fails(s, m)
    case Responded(r) => AfterRecording(env, Counted(s, r), r, Recorded(env, Counted(s, r), r))
  }

  predicate CanChat(env: Env) {
    (|env.tools| > 0 && env.supportsTools) || env.supportsChat
  }

  function LogCall(s: State): State {
    s.(trace := s.trace + [Called(s.messages, Map(DictToMessage, s.messages))])
  }

  function Ask(env: Env, s: State): Reply {
    env.provider(s.llmCalls, Map(DictToMessage, s.messages))
  }

  /** The provider call, after a check that found the flag clear. */
  function CallProvider(env: Env, s: State): State {
    if !CanChat(env) then Fails(s, "Provider does not support chat")
    else AfterReply(env, LogCall(s), Ask(env, s))
  }

  /** A check of the cancel flag. */
  function Check(env: Env, s: State): State {
    s.(trace := s.trace + [Checked(env.cancelled(|s.trace|))])
  }

  function TopOfLoop(env: Env, s: State): State {
    if s.steps >= env.maxSteps then ExhaustsSteps(s)
    else if env.cancelled(|s.trace|) then Cancels(Check(env, s))
    else CallProvider(env, Check(env, s))
  }

  function AnswerText(r: ToolExecutionResult): string {
    if r.IsSuccess() then r.text
    else "Error: " + if r.error.Some? then r.error.value else "None"
  }

  function ToolRecord(env: Env, call: ToolCall, r: ToolExecutionResult, elapsed: int, now: T.Time): T.ToolCallRecord {
    T.ToolCallRecord(call.id, call.name, ArgumentsOf(env, call), r.text, r.isError, elapsed, now, Some(now))
  }

  /** The state once a tool has returned: recorded, then answered. */
  function Answered(env: Env, s: State, call: ToolCall, r: ToolExecutionResult): State {
    var now := env.now(|s.trace|);
    s.(recording := if s.recording.None? then None
                    else Some(s.recording.value.WithToolCall(
                                ToolRecord(env, call, r, env.elapsed(|s.trace|), now), now)),
       messages := s.messages + [Tool(call.id, AnswerText(r))])
  }

  /** The loop has taken the next call: it counts before it runs. */
  function Started(s: State): State
    requires s.pending != []
  {
    s.(steps := s.steps + 1, toolCalls := s.toolCalls + 1, pending := s.pending[1..],
       trace := s.trace + [Ran(s.pending[0])])
  }

  function CheckAfterTool(env: Env, s: State): State {
    if env.cancelled(|s.trace|) then Cancels(Check(env, s)) else Check(env, s)
  }

  function AfterExecution(env: Env, s: State, call: ToolCall, execution: Result<ToolExecutionResult>): State {
    match execution
    case Raise(m) => Fails(s, m)
    case Ok(r) => CheckAfterTool(env, Answered(env, s, call, r))
  }

  /** Only malformed arguments are forgiven; another exception of the decoder fails
      the run. */
  function Perform(env: Env, n: nat, call: ToolCall): Result<ToolExecutionResult> {
    if Decode(env, call.arguments).Unreadable? then Raise(Decode(env, call.arguments).message)
    else ExecuteTool(env.tools, env.functions, n, call.name, ArgumentsOf(env, call))
  }

  function ToolStep(env: Env, s: State): State
    requires s.pending != []
  {
    AfterExecution(env, Started(s), s.pending[0], Perform(env, s.toolCalls, s.pending[0]))
  }

  function Step(env: Env, s: State): State
    requires s.result.None?
  {
    if s.pending != [] then ToolStep(env, s) else TopOfLoop(env, s)
  }

  /** What is left of the budget once the pending calls are done. */
  function Remaining(env: Env, s: State): nat {
    Max(0, env.maxSteps - s.steps - |s.pending|)
  }

  /** The state in which the run ends. */
  function Final(env: Env, s: State): State
    decreases Remaining(env, s), |s.pending|, s.result.None?
  {
    if s.result.Some? then s else Final(env, Step(env, s))
  }

  /** The result of a run from the start. */
  function Run(env: Env, recording: Option<Recording>): State {
    Final(env, Initial(env, recording))
  }

  // ----- The loop itself -----

  /** The variables of one `execute` call, and the steps of its body.  `Now` is
      the state they stand for; `clock` counts the events in the ghost `trace`. */
  class Execution {
    const env: Env
    const registry: ToolRegistry
    const recorder: TrajectoryRecorder?
    var messages: seq<Message>
    var stepCount: nat
    var llmCallCount: nat
    var toolCallCount: nat
    var tokensInput: int
    var tokensOutput: int
    var totalCost: real
    var clock: nat
    ghost var trace: seq<Event>

    ghost function Recording(): Option<Recording>
      reads this, recorder
    {
      if recorder == null then None else Some(recorder.Contents())
    }

    ghost function Now(pending: seq<ToolCall>): State
      reads this, recorder
    {
      State(messages, pending, stepCount, llmCallCount, toolCallCount, tokensInput, tokensOutput, totalCost,
            trace, Recording(), None)
    }

    /** The registry holds the tools of the environment. */
    ghost predicate Valid()
      reads this, recorder, registry
    {
      && clock == |trace| && (recorder != null ==> recorder.Valid())
      && registry.tools == env.tools && registry.functions == env.functions
    }

    constructor (env: Env, registry: ToolRegistry, recorder: TrajectoryRecorder?)
      requires recorder != null ==> recorder.Valid()
      requires registry.tools == env.tools && registry.functions == env.functions
      ensures Valid() && this.env == env && this.registry == registry && this.recorder == recorder
      ensures Now([]) == Initial(env, if recorder == null then None else Some(recorder.Contents()))
    {
      this.env, this.registry, this.recorder := env, registry, recorder;
      messages := if env.systemPrompt != "" then [System(env.systemPrompt)] else [];
      stepCount, llmCallCount, toolCallCount := 0, 0, 0;
      tokensInput, tokensOutput, totalCost := 0, 0, 0.0;
      clock, trace := 0, [];
      new;
      messages := messages + [User(env.userMessage)];
    }

    /** `cancel_event.is_set()` */
    method IsCancelled(ghost pending: seq<ToolCall>) returns (isSet: bool)
      requires Valid()
      modifies this`clock, this`trace
      ensures Valid() && isSet == env.cancelled(old(clock))
      ensures Now(pending) == Check(env, old(Now(pending)))
    {
      isSet := env.cancelled(clock);
      clock := clock + 1;
      trace := trace + [Checked(isSet)];
    }

    /** The records of the requested calls, when there is a recorder. */
    method RequestedCalls(calls: seq<ToolCall>) returns (r: Result<seq<T.ToolCallRecord>>)
      ensures r == RequestedRecords(env, calls, env.now(clock))
    {
      var records: seq<T.ToolCallRecord> := [];
      var i := 0;
      var now := env.now(clock);
      assert calls[0..] == calls && forall rest: seq<T.ToolCallRecord> :: records + rest == rest;
      while i < |calls|
        invariant 0 <= i <= |calls|
        invariant RequestedRecords(env, calls, now) == After(records, RequestedRecords(env, calls[i..], now))
      {
        var decoded := Decode(env, calls[i].arguments);
        if !decoded.Value? {
          return Raise(decoded.message);
        }
        assert calls[i..][1..] == calls[i + 1..];
        var record := T.ToolCallRecord(calls[i].id, calls[i].name, decoded.json, "", false, 0, now, None);
        assert forall rest :: records + ([record] + rest) == records + [record] + rest;
        records := records + [record];
        i := i + 1;
      }
      assert calls[i..] == [] && records + [] == records;
      r := Ok(records);
    }

    /** Recording a response can raise, when arguments do not decode. */
    method Record(response: Response) returns (r: Result<()>)
      requires Valid()
      modifies recorder
      ensures Valid()
      ensures r.Raise? ==> Recorded(env, old(Now([])), response) == Raise(r.message) && Recording() == old(Recording())
      ensures r.Ok? ==> Recorded(env, old(Now([])), response) == Ok(Recording())
    {
      r := Ok(());
      if recorder != null {
        var requested := RequestedCalls(response.toolCalls);
        if requested.Raise? {
          return Raise(requested.message);
        }
        recorder.RecordLlmCall(response.provider, response.model, |messages|, response.content, requested.value,
                               response.inputTokens, response.outputTokens, 0.0, env.elapsed(clock),
                               response.finishReason, "", env.now(clock));
      }
    }

    /** Counts a response with its usage. */
    method Count(response: Response)
      requires Valid()
      modifies this`llmCallCount, this`tokensInput, this`tokensOutput, this`totalCost
      ensures Valid() && Now([]) == Counted(old(Now([])), response)
    {
      llmCallCount := llmCallCount + 1;
      tokensInput := tokensInput + response.inputTokens;
      tokensOutput := tokensOutput + response.outputTokens;
      totalCost := totalCost + response.costUsd;
    }

    /** One provider call with its bookkeeping. */
    method AskProvider(hasTools: bool) returns (r: Result<Response>)
      requires Valid() && hasTools == (|env.tools| > 0 && env.supportsTools)
      modifies this, recorder
      ensures Valid()
      ensures r.Raise? ==> CallProvider(env, old(Now([]))) == Fails(Now([]), r.message)
      ensures r.Ok? ==> CallProvider(env, old(Now([]))) == Proceed(env, Now([]), r.value)
      ensures stepCount == old(stepCount)
    {
      if !hasTools && !env.supportsChat {
        return Raise("Provider does not support chat");
      }
      clock := clock + 1;
      var sent := Map(DictToMessage, messages);
      trace := trace + [Called(messages, sent)];
      var reply := env.provider(llmCallCount, sent);
      if reply.ProviderThrew? {
        return Raise(reply.message);
      }
      var response := reply.response;
      Count(response);
      ghost var counted := Now([]);
      var recorded := Record(response);
      assert Now([]) == counted.(recording := Recording());
      r := if recorded.Raise? then Raise(recorded.message) else Ok(response);
    }

    /** Decodes the arguments of a call and runs its tool.  Arguments that are not
        JSON count as none, and with those no execution raises; any other exception
        of the decoder is raised. */
    method ExecuteCall(call: ToolCall) returns (args: Json, execution: Result<ToolExecutionResult>)
      requires Valid() && toolCallCount > 0
      ensures var decoded := Decode(env, call.arguments);
              && (decoded.Value? ==> decoded.json == args)
              && (decoded.Malformed? ==> args == Object(map[]) && execution.Ok?)
              && (decoded.Unreadable? ==> execution == Raise(decoded.message))
              && (!decoded.Unreadable? ==>
                    execution == ExecuteTool(env.tools, env.functions, toolCallCount - 1, call.name, args))
    {
      args := Object(map[]);
      var decoded := Decode(env, call.arguments);
      if decoded.Unreadable? {
        return args, Raise(decoded.message);
      }
      if decoded.Value? {
        args := decoded.json;
      }
      execution := registry.Execute(toolCallCount - 1, call.name, args);
      ExecuteRaisesExactly(env.tools, env.functions, toolCallCount - 1, call.name, args);
    }

    /** Records the outcome of a tool and answers the call with it. */
    method AnswerCall(call: ToolCall, args: Json, toolResult: ToolExecutionResult, ghost rest: seq<ToolCall>)
      requires Valid() && args == ArgumentsOf(env, call)
      modifies this`messages, recorder
      ensures Valid() && Now(rest) == Answered(env, old(Now(rest)), call, toolResult)
    {
      if recorder != null {
        recorder.RecordToolCall(call.id, call.name, args, toolResult.text, toolResult.isError,
                                env.elapsed(clock), env.now(clock));
      }
      messages := messages + [Tool(call.id, AnswerText(toolResult))];
    }

    /** Counts a call before its tool runs. */
    method Start(call: ToolCall, ghost rest: seq<ToolCall>)
      requires Valid()
      modifies this`clock, this`trace, this`stepCount, this`toolCallCount
      ensures Valid() && stepCount == old(stepCount) + 1 && toolCallCount == old(toolCallCount) + 1
      ensures Now(rest) == Started(old(Now([call] + rest)))
    {
      clock := clock + 1;
      trace := trace + [Ran(call)];
      stepCount := stepCount + 1;
      toolCallCount := toolCallCount + 1;
    }

    /** One tool execution with its bookkeeping, up to the check after it. */
    method RunTool(call: ToolCall, ghost rest: seq<ToolCall>) returns (r: Result<()>)
      requires Valid()
      modifies this, recorder
      ensures Valid() && stepCount == old(stepCount) + 1
      ensures var before := old(Now([call] + rest));
              ToolStep(env, before) == if r.Raise? then Fails(Now(rest), r.message)
                                                else CheckAfterTool(env, Now(rest))
    {
      Start(call, rest);
      var args, execution := ExecuteCall(call);
      if execution.Raise? {
        return Raise(execution.message);
      }
      AnswerCall(call, args, execution.value, rest);
      r := Ok(());
    }

    method Complete(content: string) returns (result: LoopResult, ghost end: State)
      requires Valid()
      modifies recorder
      ensures Valid()
      ensures end == Completes(old(Now([])), content, env.now(clock))
      ensures end.result == Some(result) && end.recording == Recording()
    {
      end := Completes(Now([]), content, env.now(clock));
      if recorder != null {
        recorder.RecordFinalAnswer(content, env.now(clock));
      }
      result := LoopResult(true, content, stepCount, llmCallCount, toolCallCount, tokensInput, tokensOutput, totalCost,
                           None, T.Completed);
    }

    method Cancel(ghost pending: seq<ToolCall>) returns (result: LoopResult, ghost end: State)
      requires Valid()
      modifies recorder
      ensures Valid()
      ensures end == Cancels(old(Now(pending)))
      ensures end.result == Some(result) && end.recording == Recording()
    {
      end := Cancels(Now(pending));
      if recorder != null {
        recorder.SetStatus(T.Cancelled);
      }
      result := LoopResult(false, "", stepCount, llmCallCount, toolCallCount, tokensInput, tokensOutput, totalCost,
                           Some("Agent run cancelled"), T.Cancelled);
    }

    method ExhaustSteps() returns (result: LoopResult, ghost end: State)
      requires Valid()
      modifies recorder
      ensures Valid()
      ensures end == ExhaustsSteps(old(Now([])))
      ensures end.result == Some(result) && end.recording == Recording()
    {
      end := ExhaustsSteps(Now([]));
      if recorder != null {
        recorder.SetStatus(T.MaxStepsReached);
      }
      result := LoopResult(false, "", stepCount, llmCallCount, toolCallCount, tokensInput, tokensOutput, totalCost,
                           Some("Maximum steps reached without final answer"), T.MaxStepsReached);
    }

    /** The exception handler. */
    method Fail(message: string, ghost pending: seq<ToolCall>) returns (result: LoopResult, ghost end: State)
      requires Valid()
      modifies recorder
      ensures Valid()
      ensures end == Fails(old(Now(pending)), message)
      ensures end.result == Some(result) && end.recording == Recording()
    {
      end := Fails(Now(pending), message);
      if recorder != null {
        recorder.SetError(message);
      }
      result := LoopResult(false, "", stepCount, llmCallCount, toolCallCount, tokensInput, tokensOutput, totalCost,
                           Some(message), T.FailedStatus);
    }
  }

  /** Running on from the top of the loop, by what the check there finds. */
  lemma FinalAtTop(env: Env, s: State)
    requires s.result.None? && s.pending == []
    ensures s.steps >= env.maxSteps ==> Final(env, s) == ExhaustsSteps(s)
    ensures s.steps < env.maxSteps && env.cancelled(|s.trace|) ==> Final(env, s) == Cancels(Check(env, s))
    ensures s.steps < env.maxSteps && !env.cancelled(|s.trace|) ==>
              Final(env, s) == Final(env, CallProvider(env, Check(env, s)))
  {
    assert Final(env, s) == Final(env, TopOfLoop(env, s));
  }

  /** Running on from a state in which a response has been counted and recorded. */
  lemma FinalProceeds(env: Env, s: State, r: Response)
    requires s.result.None?
    ensures r.toolCalls == [] ==> Final(env, Proceed(env, s, r)) == Completes(s, r.content, env.now(|s.trace|))
  {
  }

  lemma FinalFails(env: Env, s: State, message: string)
    ensures Final(env, Fails(s, message)) == Fails(s, message)
  {
  }

  /** Running on from a pending call. */
  lemma FinalAtTool(env: Env, s: State)
    requires s.result.None? && s.pending != []
    ensures Final(env, s) == Final(env, ToolStep(env, s))
  {
  }

  /** Running on from a tool's answer. */
  lemma FinalAfterTool(env: Env, s: State)
    requires s.result.None?
    ensures env.cancelled(|s.trace|) ==> Final(env, CheckAfterTool(env, s)) == Cancels(Check(env, s))
    ensures !env.cancelled(|s.trace|) ==> Final(env, CheckAfterTool(env, s)) == Final(env, Check(env, s))
  {
  }

  /** One call of a response; the run may end. */
  method RunCall(x: Execution, call: ToolCall, ghost rest: seq<ToolCall>, ghost goal: State)
    returns (result: Option<LoopResult>, ghost end: State)
    requires x.Valid() && Final(x.env, x.Now([call] + rest)) == goal
    modifies x, x.recorder
    ensures x.Valid() && x.stepCount == old(x.stepCount) + 1
    ensures result.Some? ==> end == goal && end.result == result && end.recording == x.Recording()
    ensures result.None? ==> Final(x.env, x.Now(rest)) == goal
  {
    end := goal;
    FinalAtTool(x.env, x.Now([call] + rest));
    var executed := x.RunTool(call, rest);
    var ended: LoopResult;
    if executed.Raise? {
      FinalFails(x.env, x.Now(rest), executed.message);
      ended, end := x.Fail(executed.message, rest);
      return Some(ended), end;
    }
    FinalAfterTool(x.env, x.Now(rest));
    var isSet := x.IsCancelled(rest);
    if isSet {
      ended, end := x.Cancel(rest);
      return Some(ended), end;
    }
    result := None;
  }

  /** The calls of one response, in order; the run may end on the way. */
  method RunCalls(x: Execution, calls: seq<ToolCall>, ghost goal: State)
    returns (result: Option<LoopResult>, ghost end: State)
    requires x.Valid() && Final(x.env, x.Now(calls)) == goal
    modifies x, x.recorder
    ensures x.Valid()
    ensures result.Some? ==> end == goal && end.result == result && end.recording == x.Recording()
    ensures result.None? ==> Final(x.env, x.Now([])) == goal && x.stepCount == old(x.stepCount) + |calls|
  {
    var i := 0;
    end := goal;
    result := None;
    assert calls[0..] == calls;
    while i < |calls|
      invariant 0 <= i <= |calls| && x.stepCount == old(x.stepCount) + i
      invariant x.Valid() && Final(x.env, x.Now(calls[i..])) == goal
    {
      assert calls[i..] == [calls[i]] + calls[i + 1..];
      result, end := RunCall(x, calls[i], calls[i + 1..], goal);
      if result.Some? {
        return;
      }
      i := i + 1;
    }
    assert calls[i..] == [];
    result := None;
  }

  /** The check and the provider call at the top of the loop; the run may end. */
  method NextResponse(x: Execution, hasTools: bool, ghost goal: State)
    returns (result: Option<LoopResult>, calls: seq<ToolCall>, ghost end: State)
    requires x.Valid() && hasTools == (|x.env.tools| > 0 && x.env.supportsTools) && x.stepCount < x.env.maxSteps
    requires Final(x.env, x.Now([])) == goal
    modifies x, x.recorder
    ensures x.Valid() && x.stepCount == old(x.stepCount)
    ensures result.Some? ==> end == goal && end.result == result && end.recording == x.Recording()
    ensures result.None? ==> Final(x.env, x.Now(calls)) == goal && calls != []
  {
    end := goal;
    calls := [];
    FinalAtTop(x.env, x.Now([]));
    var isSet := x.IsCancelled([]);
    var ended: LoopResult;
    if isSet {
      ended, end := x.Cancel([]);
      return Some(ended), calls, end;
    }
    var reply := x.AskProvider(hasTools);
    if reply.Raise? {
      FinalFails(x.env, x.Now([]), reply.message);
      ended, end := x.Fail(reply.message, []);
      return Some(ended), calls, end;
    }
    FinalProceeds(x.env, x.Now([]), reply.value);
    calls := reply.value.toolCalls;
    if calls == [] {
      ended, end := x.Complete(reply.value.content);
      return Some(ended), calls, end;
    }
    x.messages := x.messages + [Assistant(reply.value.content, calls)];
    result := None;
  }

  /** The loop: it ends in the state, with the result and with the recording, of
      the state machine's run. */
  method Execute(env: Env, registry: ToolRegistry, recorder: TrajectoryRecorder?)
    returns (result: LoopResult, ghost end: State)
    requires recorder != null ==> recorder.Valid()
    requires registry.tools == env.tools && registry.functions == env.functions
    modifies recorder
    ensures recorder != null ==> recorder.Valid()
    ensures end == Run(env, if recorder == null then None else Some(old(recorder.Contents())))
    ensures end.result == Some(result)
    ensures end.recording == if recorder == null then None else Some(recorder.Contents())
  {
    var x := new Execution(env, registry, recorder);
    var hasTools := |registry.tools| > 0 && env.supportsTools;
    ghost var goal := Final(env, x.Now([]));
    while x.stepCount < env.maxSteps
      invariant x.Valid() && fresh(x) && x.env == env && x.recorder == recorder
      invariant Final(env, x.Now([])) == goal
      decreases env.maxSteps - x.stepCount
    {
      var ended: Option<LoopResult>, calls: seq<ToolCall>;
      ended, calls, end := NextResponse(x, hasTools, goal);
      if ended.None? {
        ended, end := RunCalls(x, calls, goal);
      }
      if ended.Some? {
        return ended.value, end;
      }
    }
    FinalAtTop(env, x.Now([]));
    result, end := x.ExhaustSteps();
  }
}
