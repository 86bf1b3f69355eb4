/** The loop and its recorder: the trajectory agrees with the loop's result, except
    exactly where arguments fail to decode or validation raises. */
module AgentLoopRecording {
  import opened Wrappers
  import opened Collections
  import opened ToolExecution
  import T = Trajectory
  import opened TrajectoryRecorder
  import opened AgentLoop
  import opened AgentLoopProperties
  import opened AgentLoopTotals
  import opened AgentLoopAnswers

  // ----- What a move adds to the recording -----

  /** A record of a requested call: its arguments decoded, and nothing run yet. */
  ghost predicate AsksFor(env: Env, record: T.ToolCallRecord, c: ToolCall) {
    && record.toolCallId == c.id && record.toolName == c.name
    && Decode(env, c.arguments) == Value(record.arguments) && record.text == "" && !record.isError
  }

  /** An LLM record that stands for a response. */
  ghost predicate Describes(env: Env, call: T.LlmCallRecord, r: Response) {
    && call.provider == r.provider && call.model == r.model && call.finishReason == r.finishReason
    && call.responseContent == r.content && call.tokensInput == r.inputTokens && call.tokensOutput == r.outputTokens
    && call.costUsd == 0.0 && |call.toolCallsRequested| == |r.toolCalls|
    && forall i :: 0 <= i < |r.toolCalls| ==> AsksFor(env, call.toolCallsRequested[i], r.toolCalls[i])
  }

  /** A tool record that stands for an executed call and its answer. */
  ghost predicate Transcribes(env: Env, record: T.ToolCallRecord, c: ToolCall, content: string) {
    && record.toolCallId == c.id && record.toolName == c.name && StandsFor(env, c.arguments, record.arguments)
    && if record.isError then record.text == "" && "Error: " <= content else content == record.text
  }

  /** The record of a provider call in this state: what was sent and when, and how long
      it took. */
  ghost predicate Timed(env: Env, s: State, call: T.LlmCallRecord, now: T.Time) {
    && call.messagesSent == |s.messages| && call.latencyMs == env.elapsed(|s.trace| + 2)
    && now == env.now(|s.trace| + 2) && call.startedAt == now && call.completedAt == Some(now)
  }

  /** The recording after the part of a move before its end. */
  ghost predicate Adds(env: Env, s: State, m: Move, after: Recording)
    requires s.recording.Some?
  {
    var before := s.recording.value;
    match m
    case NewRound(r) =>
      exists call, now ::
        Describes(env, call, r) && Timed(env, s, call, now) && after == before.WithLlmCall(call, "", now)
    case FinalAnswer(r) =>
      exists call, now, later ::
        && Describes(env, call, r) && Timed(env, s, call, now) && later == now
        && after == before.WithLlmCall(call, "", now).WithFinalAnswer(r.content, later)
    case ToolAnswered(content) =>
      s.pending != [] && exists call, now ::
        && Transcribes(env, call, s.pending[0], content) && call.latencyMs == env.elapsed(|s.trace| + 1)
        && now == env.now(|s.trace| + 1) && call.startedAt == now && call.completedAt == Some(now)
        && after == before.WithToolCall(call, now)
    case _ => after == before
  }

  /** How the recording is closed. */
  function Closed(rec: Recording, status: T.Status, error: Option<string>): Recording {
    match status
    case Completed => rec
    case FailedStatus => rec.WithFailure(if error.Some? then error.value else "")
    case _ => rec.WithStatus(status)
  }

  ghost predicate Records(env: Env, s: State, m: Move, u: State) {
    && s.recording.Some? && u.recording.Some?
    && exists added ::
         && Adds(env, s, m, added)
         && match EndOf(env, s, m)
            case None => u.recording.value == added
            case Some(status) =>
              && u.result.Some? && (status == T.FailedStatus ==> u.result.value.error.Some?)
              && u.recording.value == Closed(added, status, u.result.value.error)
  }

  lemma {:induction false} RecordsDescribe(env: Env, calls: seq<ToolCall>, now: T.Time)
    requires RequestedRecords(env, calls, now).Ok?
    ensures var records := RequestedRecords(env, calls, now).value;
            |records| == |calls| && forall i :: 0 <= i < |calls| ==> AsksFor(env, records[i], calls[i])
  {
    if calls == [] {
    } else {
      RecordsDescribe(env, calls[1..], now);
    }
  }

  lemma ToolTranscribed(env: Env, n: nat, c: ToolCall, elapsed: int, now: T.Time)
    requires Perform(env, n, c).Ok?
    ensures var r := Perform(env, n, c).value; Transcribes(env, ToolRecord(env, c, r, elapsed, now), c, AnswerText(r))
  {
    ExecuteExactly(env.tools, env.functions, n, c.name, ArgumentsOf(env, c));
    ExecuteSucceedsExactly(env.tools, env.functions, n, c.name, ArgumentsOf(env, c));
  }

  lemma ToolRecords(env: Env, s: State, execution: Result<ToolExecutionResult>)
    requires s.result.None? && s.pending != [] && s.recording.Some?
    requires execution == Perform(env, s.toolCalls, s.pending[0])
    ensures Records(env, s, ToolMove(execution), AfterExecution(env, Started(s), s.pending[0], execution))
  {
    if execution.Ok? {
      var u := Answered(env, Started(s), s.pending[0], execution.value);
      var clock := |Started(s).trace|;
      ToolTranscribed(env, s.toolCalls, s.pending[0], env.elapsed(clock), env.now(clock));
      assert Adds(env, s, ToolMove(execution), u.recording.value);
    } else {
      assert Adds(env, s, ToolRaised, s.recording.value);
    }
  }

  lemma ResponseRecords(env: Env, s: State, r: Response)
    requires s.result.None? && s.pending == [] && s.recording.Some?
    requires s.steps < env.maxSteps && !env.cancelled(|s.trace|)
    ensures var recorded := RecordedAt(env, s, r);
            Records(env, s, ResponseMove(r, recorded), AfterRecording(env, Counted(Asked(env, s), r), r, recorded))
  {
    var s1 := Counted(Asked(env, s), r);
    var before := s.recording.value;
    var now := env.now(|s1.trace|);
    if RecordedAt(env, s, r).Raise? {
      assert Adds(env, s, ResponseLost(r), before);
    } else {
      RecordsDescribe(env, r.toolCalls, now);
      var requested := RequestedRecords(env, r.toolCalls, now).value;
      var call := LlmRecord(r, |s1.messages|, requested, env.elapsed(|s1.trace|), now);
      assert Describes(env, call, r);
      var after := before.WithLlmCall(call, "", now);
      if r.toolCalls == [] {
        assert Adds(env, s, FinalAnswer(r), after.WithFinalAnswer(r.content, now));
      } else {
        assert Adds(env, s, NewRound(r), after);
      }
    }
  }

  lemma FailureRecords(env: Env, s: State, message: string)
    requires s.result.None? && s.pending == [] && s.recording.Some?
    ensures Records(env, s, CannotChat, Fails(Check(env, s), message))
    ensures Records(env, s, ProviderFailed, Fails(Asked(env, s), message))
  {
    var before := s.recording.value;
    assert Adds(env, s, CannotChat, before) && Adds(env, s, ProviderFailed, before);
  }

  lemma EndRecords(env: Env, s: State)
    requires s.result.None? && s.pending == [] && s.recording.Some?
    ensures Records(env, s, Exhausted, ExhaustsSteps(s))
    ensures Records(env, s, CancelledAtTop, Cancels(Check(env, s)))
  {
    var before := s.recording.value;
    assert Adds(env, s, Exhausted, before) && Adds(env, s, CancelledAtTop, before);
  }

  /** A step with a recorder records its move. */
  lemma StepRecords(env: Env, s: State)
    requires s.result.None? && s.recording.Some?
    ensures Records(env, s, MoveOf(env, s), Step(env, s))
  {
    if s.pending != [] {
      ToolRecords(env, s, Perform(env, s.toolCalls, s.pending[0]));
    } else if s.steps >= env.maxSteps || env.cancelled(|s.trace|) {
      EndRecords(env, s);
    } else if !CanChat(env) {
      FailureRecords(env, s, "Provider does not support chat");
    } else {
      match ReplyAt(env, s)
      case ProviderThrew(message) => FailureRecords(env, s, message);
      case Responded(r) => ResponseRecords(env, s, r);
    }
  }

  // ----- The recording agrees with the loop -----

  /** What a recording's steps add up to. */
  ghost predicate Tallies(rec: Recording, llm: int, tools: int, tokensIn: int, tokensOut: int, answers: int) {
    && Sum(T.LlmCount, rec.steps) == llm
    && Sum(T.ToolCount, rec.steps) == tools
    && Sum(T.TokensIn, rec.steps) == tokensIn
    && Sum(T.TokensOut, rec.steps) == tokensOut
    && SumReal(T.CostOf, rec.steps) == 0.0
    && |rec.steps| == llm + tools + answers
    && rec.Indexed()
  }

  lemma StepTallies(rec: Recording, step: T.Step, llm: int, tools: int, tokensIn: int, tokensOut: int, answers: int)
    requires Tallies(rec, llm, tools, tokensIn, tokensOut, answers)
    requires step.stepIndex == |rec.steps| && T.CostOf(step) == 0.0
    requires !(step.llmCall.Some? && step.toolCall.Some?)
    ensures Tallies(rec.WithStep(step), llm + T.LlmCount(step), tools + T.ToolCount(step),
                    tokensIn + T.TokensIn(step), tokensOut + T.TokensOut(step),
                    answers + if step.llmCall.None? && step.toolCall.None? then 1 else 0)
  {
    var after := rec.steps + [step];
    assert after[..|after| - 1] == rec.steps;
  }

  /** No step so far ends a run. */
  ghost predicate Unanswering(rec: Recording) {
    forall i :: 0 <= i < |rec.steps| ==> T.AnswerOf(rec.steps[i]).None?
  }

  lemma {:induction false} NoFinalResponse(steps: seq<T.Step>)
    requires forall i :: 0 <= i < |steps| ==> T.AnswerOf(steps[i]).None?
    ensures T.FinalResponse(steps) == ""
  {
    if steps == [] {
    } else {
      NoFinalResponse(steps[..|steps| - 1]);
    }
  }

  /** The run failed on the response it had just counted. */
  predicate LostResponse(s: State) {
    && s.result.Some? && s.result.value.status == T.FailedStatus
    && |s.trace| > 0 && s.trace[|s.trace| - 1].Called? && 0 < s.llmCalls == ProviderCalls(s.trace)
  }

  /** The provider's last reply, when that response was lost. */
  function LostReply(env: Env, s: State): Reply
    requires LostResponse(s)
  {
    env.provider(s.llmCalls - 1, s.trace[|s.trace| - 1].sent)
  }

  /** The run failed on the tool it had just started. */
  predicate LostTool(s: State) {
    s.result.Some? && s.result.value.status == T.FailedStatus && EndsInTool(s)
  }

  /** The usage of a lost response; nothing otherwise. */
  function LostUsage(env: Env, s: State): (int, int) {
    if LostResponse(s) && LostReply(env, s).Responded? then
      (LostReply(env, s).response.inputTokens, LostReply(env, s).response.outputTokens)
    else (0, 0)
  }

  ghost predicate Undecodable(env: Env, calls: seq<ToolCall>) {
    exists c :: c in calls && !Decodes(env, c)
  }

  /** The recording and the loop's counters match, up to what was lost. */
  ghost predicate RecordingKept(env: Env, s: State) {
    && s.recording.Some?
    && var rec := s.recording.value;
       match s.result
       case None =>
         && s.llmCalls == ProviderCalls(s.trace)
         && Tallies(rec, s.llmCalls, s.toolCalls, s.tokensInput, s.tokensOutput, 0)
         && Unanswering(rec) && rec.status == T.Completed && rec.error == None
       case Some(r) =>
         && Tallies(rec, s.llmCalls - (if LostResponse(s) then 1 else 0), s.toolCalls - (if LostTool(s) then 1 else 0),
                    s.tokensInput - LostUsage(env, s).0, s.tokensOutput - LostUsage(env, s).1,
                    if r.status == T.Completed then 1 else 0)
         && rec.status == r.status && T.FinalResponse(rec.steps) == r.finalResponse
         && rec.error == (if r.status == T.FailedStatus then r.error else None)
         && (LostResponse(s) ==> LostReply(env, s).Responded? && Undecodable(env, LostReply(env, s).response.toolCalls))
  }

  lemma LlmTally(env: Env, rec: Recording, call: T.LlmCallRecord, r: Response, now: T.Time,
                 llm: int, tools: int, tokensIn: int, tokensOut: int)
    requires Tallies(rec, llm, tools, tokensIn, tokensOut, 0) && Unanswering(rec) && Describes(env, call, r)
    ensures var after := rec.WithLlmCall(call, "", now);
            && Tallies(after, llm + 1, tools, tokensIn + r.inputTokens, tokensOut + r.outputTokens, 0)
            && (r.toolCalls != [] ==> Unanswering(after))
  {
    var step := rec.WithLlmCall(call, "", now).steps[|rec.steps|];
    StepTallies(rec, step, llm, tools, tokensIn, tokensOut, 0);
    assert T.AnswerOf(step).None? <==> call.toolCallsRequested != [];
  }

  lemma ToolTally(rec: Recording, call: T.ToolCallRecord, now: T.Time,
                  llm: int, tools: int, tokensIn: int, tokensOut: int)
    requires Tallies(rec, llm, tools, tokensIn, tokensOut, 0) && Unanswering(rec)
    ensures var after := rec.WithToolCall(call, now);
            Tallies(after, llm, tools + 1, tokensIn, tokensOut, 0) && Unanswering(after)
  {
    StepTallies(rec, rec.WithToolCall(call, now).steps[|rec.steps|], llm, tools, tokensIn, tokensOut, 0);
  }

  lemma AnswerTally(rec: Recording, content: string, now: T.Time,
                    llm: int, tools: int, tokensIn: int, tokensOut: int)
    requires Tallies(rec, llm, tools, tokensIn, tokensOut, 0)
    ensures var after := rec.WithFinalAnswer(content, now);
            Tallies(after, llm, tools, tokensIn, tokensOut, 1) && T.FinalResponse(after.steps) == content
  {
    StepTallies(rec, rec.WithFinalAnswer(content, now).steps[|rec.steps|], llm, tools, tokensIn, tokensOut, 0);
  }

  /** What a recording comes to before it is closed, in terms of the move. */
  ghost predicate TalliesAfter(s: State, m: Move, added: Recording) {
    && Tallies(added,
               s.llmCalls + (if m.NewRound? || m.FinalAnswer? then 1 else 0),
               s.toolCalls + (if m.ToolAnswered? then 1 else 0),
               s.tokensInput + (if m.NewRound? || m.FinalAnswer? then m.r.inputTokens else 0),
               s.tokensOutput + (if m.NewRound? || m.FinalAnswer? then m.r.outputTokens else 0),
               if m.FinalAnswer? then 1 else 0)
    && (!m.FinalAnswer? ==> Unanswering(added))
    && T.FinalResponse(added.steps) == (if m.FinalAnswer? then m.r.content else "")
    && added.status == T.Completed && added.error == None
  }

  lemma RoundTallies(env: Env, s: State, m: Move, added: Recording)
    requires RecordingKept(env, s) && s.result.None? && Adds(env, s, m, added)
    requires m.NewRound? && m.r.toolCalls != []
    ensures TalliesAfter(s, m, added)
  {
    var rec := s.recording.value;
    var call, now :| Describes(env, call, m.r) && added == rec.WithLlmCall(call, "", now);
    LlmTally(env, rec, call, m.r, now, s.llmCalls, s.toolCalls, s.tokensInput, s.tokensOutput);
    NoFinalResponse(added.steps);
  }

  lemma FinalTallies(env: Env, s: State, m: Move, added: Recording)
    requires RecordingKept(env, s) && s.result.None? && Adds(env, s, m, added)
    requires m.FinalAnswer?
    ensures TalliesAfter(s, m, added)
  {
    var rec, r := s.recording.value, m.r;
    var call, now, later :|
      Describes(env, call, r) && added == rec.WithLlmCall(call, "", now).WithFinalAnswer(r.content, later);
    LlmTally(env, rec, call, r, now, s.llmCalls, s.toolCalls, s.tokensInput, s.tokensOutput);
    AnswerTally(rec.WithLlmCall(call, "", now), r.content, later, s.llmCalls + 1, s.toolCalls,
                s.tokensInput + r.inputTokens, s.tokensOutput + r.outputTokens);
  }

  lemma AddsTally(env: Env, s: State, m: Move, added: Recording)
    requires RecordingKept(env, s) && s.result.None? && Adds(env, s, m, added)
    requires m.NewRound? ==> m.r.toolCalls != []
    ensures TalliesAfter(s, m, added)
  {
    var rec := s.recording.value;
    match m {
      case NewRound(_) => RoundTallies(env, s, m, added);
      case FinalAnswer(_) => FinalTallies(env, s, m, added);
      case ToolAnswered(_) =>
        var call, now :| added == rec.WithToolCall(call, now);
        ToolTally(rec, call, now, s.llmCalls, s.toolCalls, s.tokensInput, s.tokensOutput);
        NoFinalResponse(added.steps);
      case _ =>
        assert added == rec;
        NoFinalResponse(added.steps);
    }
  }

  /** What was lost, in terms of the move. */
  lemma MoveLoses(env: Env, s: State, m: Move, u: State)
    requires RecordingKept(env, s) && s.result.None? && Moves(env, s, m, u)
    requires IsCounted(m) ==> ReplyAt(env, s) == Responded(m.r)
    ensures u.llmCalls == ProviderCalls(u.trace) || m.ProviderFailed?
    ensures LostResponse(u) <==> m.ResponseLost?
    ensures LostTool(u) <==> m.ToolRaised?
    ensures m.ResponseLost? ==> LostReply(env, u) == Responded(m.r)
    ensures LostUsage(env, u) == if m.ResponseLost? then (m.r.inputTokens, m.r.outputTokens) else (0, 0)
  {
    MoveFolds(env, s, m, u);
  }

  lemma RecordingMove(env: Env, s: State, m: Move, u: State, added: Recording)
    requires RecordingKept(env, s) && s.result.None? && Moves(env, s, m, u) && u.recording.Some?
    requires IsCounted(m) ==> ReplyAt(env, s) == Responded(m.r)
    requires m.ResponseLost? ==> Undecodable(env, m.r.toolCalls)
    requires TalliesAfter(s, m, added)
    requires match EndOf(env, s, m)
             case None => u.recording.value == added
             case Some(status) =>
               && u.result.Some? && (status == T.FailedStatus ==> u.result.value.error.Some?)
               && u.recording.value == Closed(added, status, u.result.value.error)
    ensures RecordingKept(env, u)
  {
    MoveLoses(env, s, m, u);
  }

  lemma CountedReply(env: Env, s: State)
    ensures IsCounted(MoveOf(env, s)) ==> ReplyAt(env, s) == Responded(MoveOf(env, s).r)
  {
  }

  lemma RecordingStep(env: Env, s: State)
    requires RecordingKept(env, s) && s.result.None?
    ensures RecordingKept(env, Step(env, s))
  {
    var m, u := MoveOf(env, s), Step(env, s);
    StepMoves(env, s);
    StepRecords(env, s);
    var added :| && Adds(env, s, m, added)
                 && match EndOf(env, s, m)
                    case None => u.recording.value == added
                    case Some(status) =>
                      && u.result.Some? && (status == T.FailedStatus ==> u.result.value.error.Some?)
                      && u.recording.value == Closed(added, status, u.result.value.error);
    if m.ResponseLost? { LostExactly(env, s, m.r); }
    CountedReply(env, s);
    AddsTally(env, s, m, added);
    RecordingMove(env, s, m, u, added);
  }

  lemma RecordingOfRun(env: Env)
    ensures var s := Run(env, Some(FRESH)); s.result.Some? && RecordingKept(env, s)
  {
    var inv := (x: State) => RecordingKept(env, x);
    forall x: State | inv(x) && x.result.None? ensures inv(Step(env, x)) {
      RecordingStep(env, x);
    }
    Invariant(env, inv, Initial(env, Some(FRESH)));
  }

  lemma ResultReports(env: Env, recording: Option<Recording>)
    ensures Run(env, recording).result.Some? && ExecutionKept(Run(env, recording))
  {
    var inv := (x: State) => ExecutionKept(x);
    forall x: State | inv(x) && x.result.None? ensures inv(Step(env, x)) {
      StepMoves(env, x);
      ExecutionMove(env, x, MoveOf(env, x), Step(env, x));
    }
    NothingRequested(env);
    Invariant(env, inv, Initial(env, recording));
  }

  function RecordedSteps(s: State): seq<T.Step> {
    if s.recording.Some? then s.recording.value.steps else []
  }

  /** With a fresh recorder, the trajectory matches the loop's result up to what
      was lost. */
  lemma RecordingMatches(env: Env, m: T.Metrics)
    requires T.MetricsOf(RecordedSteps(Run(env, Some(FRESH))), m)
    ensures var s := Run(env, Some(FRESH));
            && s.result.Some? && s.recording.Some?
            && var r, rec := s.result.value, s.recording.value;
               && rec.status == r.status
               && T.FinalResponse(rec.steps) == r.finalResponse
               && (r.finalResponse != "" ==> r.status == T.Completed)
               && rec.error == (if r.status == T.FailedStatus then r.error else None)
               && m.llmCalls == r.totalLlmCalls - (if LostResponse(s) then 1 else 0)
               && m.toolCalls == r.totalToolCalls - (if LostTool(s) then 1 else 0)
               && m.totalTokensInput == r.totalTokensInput - LostUsage(env, s).0
               && m.totalTokensOutput == r.totalTokensOutput - LostUsage(env, s).1
               && m.totalSteps == m.llmCalls + m.toolCalls + (if r.status == T.Completed then 1 else 0)
               && m.totalCostUsd == 0.0
               && rec.Indexed()
  {
    RecordingOfRun(env);
    ResultReports(env, Some(FRESH));
  }

  // ----- When something is lost -----

  /** Some response requests a call whose arguments do not decode. */
  ghost predicate HasUndecodable(env: Env, rs: seq<Response>) {
    exists r :: r in rs && Undecodable(env, r.toolCalls)
  }

  /** Validation raises on some of these calls. */
  ghost predicate Unrunnable(env: Env, calls: seq<ToolCall>) {
    exists c :: c in calls && ValidationRaises(env.tools, c.name, ArgumentsOf(env, c))
  }

  lemma UndecodableSnoc(env: Env, rs: seq<Response>, r: Response)
    ensures HasUndecodable(env, rs + [r]) <==> HasUndecodable(env, rs) || Undecodable(env, r.toolCalls)
  {
    assert forall x :: x in rs + [r] <==> x in rs || x == r;
  }

  lemma UnrunnableSnoc(env: Env, calls: seq<ToolCall>, c: ToolCall)
    ensures Unrunnable(env, calls + [c]) <==>
              Unrunnable(env, calls) || ValidationRaises(env.tools, c.name, ArgumentsOf(env, c))
  {
    assert forall x :: x in calls + [c] <==> x in calls || x == c;
  }

  /** Nothing was lost so far, or exactly the last thing was. */
  ghost predicate GapsKept(env: Env, s: State, rs: seq<Response>, executed: seq<ToolCall>) {
    if s.result.None? then
      !HasUndecodable(env, rs) && !Unrunnable(env, executed) && !Undecodable(env, s.pending)
    else
      && (LostResponse(s) <==> HasUndecodable(env, rs))
      && (LostTool(s) <==> Unrunnable(env, executed))
      && (LostResponse(s) ==>
            && rs != [] && !HasUndecodable(env, rs[..|rs| - 1])
            && LostReply(env, s) == Responded(rs[|rs| - 1]))
      && (LostTool(s) ==> executed != [] && !Unrunnable(env, executed[..|executed| - 1]))
  }

  /** What a move tells about decoding and validation, with a recorder. */
  ghost predicate Reveals(env: Env, s: State, m: Move) {
    && (IsCounted(m) ==> (m.ResponseLost? <==> Undecodable(env, m.r.toolCalls)))
    && (IsToolMove(m) ==>
          && s.pending != []
          && (m.ToolRaised? <==> ValidationRaises(env.tools, s.pending[0].name, ArgumentsOf(env, s.pending[0]))))
  }

  lemma MoveReveals(env: Env, s: State)
    requires s.result.None? && s.recording.Some? && !Undecodable(env, s.pending)
    ensures Reveals(env, s, MoveOf(env, s))
  {
    if s.pending != [] {
      var c := s.pending[0];
      assert c in s.pending && Decodes(env, c);
      ExecuteRaisesExactly(env.tools, env.functions, s.toolCalls, c.name, ArgumentsOf(env, c));
    } else if ReplyAt(env, s).Responded? {
      LostExactly(env, s, ReplyAt(env, s).response);
    }
  }

  lemma GapsMove(env: Env, s: State, m: Move, u: State, rs: seq<Response>, executed: seq<ToolCall>)
    requires GapsKept(env, s, rs, executed) && s.result.None? && Moves(env, s, m, u) && Reveals(env, s, m)
    requires LostResponse(u) <==> m.ResponseLost?
    requires LostTool(u) <==> m.ToolRaised?
    requires m.ResponseLost? ==> LostReply(env, u) == Responded(m.r)
    ensures GapsKept(env, u, rs + Received(m), executed + if IsToolMove(m) then [s.pending[0]] else [])
  {
    if IsCounted(m) {
      UndecodableSnoc(env, rs, m.r);
      assert (rs + [m.r])[..|rs|] == rs && executed + [] == executed;
    } else if IsToolMove(m) {
      UnrunnableSnoc(env, executed, s.pending[0]);
      assert (executed + [s.pending[0]])[..|executed|] == executed && rs + [] == rs;
    } else {
      assert executed + [] == executed && rs + [] == rs;
    }
  }

  ghost predicate Kept(env: Env, s: State) {
    RecordingKept(env, s) && TotalsKept(env, s) && GapsKept(env, s, Responses(env, s.trace), Executed(s.trace))
  }

  lemma GapsStep(env: Env, s: State)
    requires Kept(env, s) && s.result.None?
    ensures var u := Step(env, s); GapsKept(env, u, Responses(env, u.trace), Executed(u.trace))
  {
    var m, u := MoveOf(env, s), Step(env, s);
    StepMoves(env, s);
    MoveIsTruthful(env, s);
    MoveReveals(env, s);
    MoveLoses(env, s, m, u);
    ResponsesMove(env, s, m, u);
    MoveFolds(env, s, m, u);
    GapsMove(env, s, m, u, Responses(env, s.trace), Executed(s.trace));
  }

  lemma GapsOfRun(env: Env)
    ensures Run(env, Some(FRESH)).result.Some? && Kept(env, Run(env, Some(FRESH)))
  {
    var inv := (x: State) => Kept(env, x);
    forall x: State | inv(x) && x.result.None? ensures inv(Step(env, x)) {
      RecordingStep(env, x);
      TotalsStep(env, x);
      GapsStep(env, x);
    }
    NothingRequested(env);
    Invariant(env, inv, Initial(env, Some(FRESH)));
  }

  /** A trajectory agrees with the result of a run that had these events: it has the
      loop's status, final response and error, and its metrics are the loop's totals,
      less what was lost.  Only two things are lost: a response that requests a call
      whose arguments do not decode, with its tokens, and a tool call on whose
      arguments validation raises.  Each is lost whenever it occurs; it is then the
      last one, and the run ends there.  The steps are the recorded LLM and tool calls
      and, on completion, one more; the cost is zero because the loop never passes one
      on. */
  ghost predicate Agrees(env: Env, trace: seq<Event>, r: LoopResult, steps: seq<T.Step>, status: T.Status,
                         error: Option<string>, m: T.Metrics)
  {
    var rs, executed := Responses(env, trace), Executed(trace);
    var lostResponse, lostTool := HasUndecodable(env, rs), Unrunnable(env, executed);
    && status == r.status
    && T.FinalResponse(steps) == r.finalResponse
    && (r.finalResponse != "" ==> r.status == T.Completed)
    && error == (if r.status == T.FailedStatus then r.error else None)
    && (lostResponse ==> rs != [] && !HasUndecodable(env, rs[..|rs| - 1]))
    && (lostTool ==> executed != [] && !Unrunnable(env, executed[..|executed| - 1]))
    && (lostResponse || lostTool ==> r.status == T.FailedStatus) && !(lostResponse && lostTool)
    && m.llmCalls == r.totalLlmCalls - (if lostResponse then 1 else 0)
    && m.toolCalls == r.totalToolCalls - (if lostTool then 1 else 0)
    && m.totalTokensInput == r.totalTokensInput - (if lostResponse then rs[|rs| - 1].inputTokens else 0)
    && m.totalTokensOutput == r.totalTokensOutput - (if lostResponse then rs[|rs| - 1].outputTokens else 0)
    && m.totalSteps == m.llmCalls + m.toolCalls + (if r.status == T.Completed then 1 else 0)
    && m.totalCostUsd == 0.0
    && forall i :: 0 <= i < |steps| ==> steps[i].stepIndex == i
  }

  /** With a fresh recorder, the recording and its metrics agree with the result. */
  lemma RecordingAgrees(env: Env, m: T.Metrics)
    requires T.MetricsOf(RecordedSteps(Run(env, Some(FRESH))), m)
    ensures var s := Run(env, Some(FRESH));
            && s.result.Some? && s.recording.Some?
            && var rec := s.recording.value;
               Agrees(env, s.trace, s.result.value, rec.steps, rec.status, rec.error, m)
  {
    GapsOfRun(env);
    RecordingMatches(env, m);
  }

  /** Running the loop with a new recorder and building the trajectory: the returned
      result and the trajectory agree. */
  method ExecuteRecorded(env: Env, registry: ToolRegistry, runId: string, agentName: string, taskDescription: string,
                         trajectoryId: string, started: T.Time, ended: T.Time)
    returns (result: LoopResult, trajectory: T.Trajectory, ghost end: State)
    requires registry.tools == env.tools && registry.functions == env.functions
    ensures end == Run(env, Some(FRESH)) && end.result == Some(result)
    ensures trajectory.trajectoryId == trajectoryId && trajectory.runId == runId
    ensures trajectory.agentName == agentName && trajectory.taskDescription == taskDescription
    ensures trajectory.startedAt == started && trajectory.completedAt == Some(ended)
    ensures T.MetricsOf(trajectory.steps, trajectory.metrics)
    ensures Agrees(env, end.trace, result, trajectory.steps, trajectory.status, trajectory.error, trajectory.metrics)
  {
    var recorder := new TrajectoryRecorder(runId, agentName, taskDescription, started);
    result, end := Execute(env, registry, recorder);
    trajectory := recorder.Build(trajectoryId, ended);
    assert end.recording == Some(recorder.Contents());
    RecordingAgrees(env, trajectory.metrics);
  }

  // ----- Both losses occur -----

  const BAD_CALL := ToolCall("", "t", "?")
  const BAD_RESPONSE := Response("", [BAD_CALL], 7, 2, 0.0, "", "", "")

  /** A provider that always requests one call; its arguments are what `decoded`
      says, and the tool is known. */
  function OneCall(decoded: Decoded): Env {
    Env(3, "", "", true, true, (n, messages) => Responded(BAD_RESPONSE), arguments => decoded,
        map["t" := ToolDefinition("t", "", [])], map["t" := (n, fields) => Returned("")], t => false, t => 0, t => 0)
  }

  /** The provider's first answer is this one. */
  ghost predicate AnswersFirst(env: Env, r: Response) {
    && env.maxSteps > 0 && CanChat(env) && !env.cancelled(0)
    && env.provider(0, Map(DictToMessage, Prefix(env))) == Responded(r)
  }

  lemma FirstMove(env: Env, recording: Option<Recording>, r: Response)
    requires AnswersFirst(env, r)
    ensures var s := Initial(env, recording);
            MoveOf(env, s) == ResponseMove(r, RecordedAt(env, s, r)) && ReplyAt(env, s) == Responded(r)
  {
  }

  lemma RunSteps(env: Env, s: State)
    requires s.result.None?
    ensures Final(env, s) == Final(env, Step(env, s))
    ensures Step(env, s).result.Some? ==> Final(env, s) == Step(env, s)
  {
  }

  lemma FirstResponseLost(env: Env, r: Response)
    requires AnswersFirst(env, r) && Undecodable(env, r.toolCalls)
    ensures Responses(env, Run(env, Some(FRESH)).trace) == [r] && Executed(Run(env, Some(FRESH)).trace) == []
  {
    var s := Initial(env, Some(FRESH));
    FirstMove(env, Some(FRESH), r);
    LostExactly(env, s, r);
    StepMoves(env, s);
    MoveIsTruthful(env, s);
    ResponsesMove(env, s, MoveOf(env, s), Step(env, s));
    MoveFolds(env, s, MoveOf(env, s), Step(env, s));
    RunSteps(env, s);
    assert [] + [r] == [r];
  }

  /** A first response that decodes begins a round. */
  lemma FirstRound(env: Env, r: Response)
    requires AnswersFirst(env, r) && r.toolCalls != [] && !Undecodable(env, r.toolCalls)
    ensures var t := Step(env, Initial(env, Some(FRESH)));
            && t.result.None? && t.recording.Some? && t.pending == r.toolCalls && Executed(t.trace) == []
            && Run(env, Some(FRESH)) == Final(env, t)
  {
    var s := Initial(env, Some(FRESH));
    FirstMove(env, Some(FRESH), r);
    LostExactly(env, s, r);
    StepMoves(env, s);
    StepRecords(env, s);
    MoveFolds(env, s, MoveOf(env, s), Step(env, s));
    RunSteps(env, s);
  }

  lemma FirstToolLost(env: Env, r: Response, c: ToolCall)
    requires AnswersFirst(env, r) && r.toolCalls == [c] && Decodes(env, c)
    requires ValidationRaises(env.tools, c.name, ArgumentsOf(env, c))
    ensures Executed(Run(env, Some(FRESH)).trace) == [c]
  {
    FirstRound(env, r);
    var t := Step(env, Initial(env, Some(FRESH)));
    MoveReveals(env, t);
    StepMoves(env, t);
    MoveFolds(env, t, MoveOf(env, t), Step(env, t));
    RunSteps(env, t);
    assert [] + [c] == [c];
  }

  /** A run that counts a response and its tokens, and records no step at all. */
  ghost predicate LosesResponse(env: Env) {
    var s := Run(env, Some(FRESH));
    && s.result.Some? && s.result.value.totalLlmCalls == 1 && s.result.value.totalTokensInput > 0
    && RecordedSteps(s) == []
  }

  /** A run that counts a tool call and records none. */
  ghost predicate LosesToolCall(env: Env) {
    var s := Run(env, Some(FRESH));
    && s.result.Some? && s.result.value.totalToolCalls == 1
    && Sum(T.ToolCount, RecordedSteps(s)) == 0
  }

  /** When the first response requests arguments that do not decode. */
  lemma ResponseIsLost(env: Env, r: Response)
    requires AnswersFirst(env, r) && Undecodable(env, r.toolCalls) && r.inputTokens > 0
    ensures LosesResponse(env)
  {
    FirstResponseLost(env, r);
    TotalsAreSums(env, Some(FRESH));
    SumsSnoc([], r);
    assert [] + [r] == [r];
    assert Sum(InputOf, [r]) == r.inputTokens;
    assert r in [r];
    ExecutedIsPrefixOfRequested(env, Some(FRESH));
    GapsOfRun(env);
    ResultReports(env, Some(FRESH));
  }

  /** When the first response requests one call, and validation raises on it. */
  lemma ToolCallIsLost(env: Env, r: Response, c: ToolCall)
    requires AnswersFirst(env, r) && r.toolCalls == [c] && Decodes(env, c)
    requires ValidationRaises(env.tools, c.name, ArgumentsOf(env, c))
    ensures LosesToolCall(env)
  {
    FirstToolLost(env, r, c);
    ExecutedIsPrefixOfRequested(env, Some(FRESH));
    assert c in [c];
    GapsOfRun(env);
    ResultReports(env, Some(FRESH));
  }

  lemma OneCallAnswers(decoded: Decoded)
    ensures AnswersFirst(OneCall(decoded), BAD_RESPONSE)
    ensures Undecodable(OneCall(decoded), BAD_RESPONSE.toolCalls) <==> !decoded.Value?
    ensures ArgumentsOf(OneCall(decoded), BAD_CALL) == if decoded.Value? then decoded.json else Object(map[])
  {
    assert BAD_CALL in BAD_RESPONSE.toolCalls;
    assert Decodes(OneCall(decoded), BAD_CALL) <==> decoded.Value?;
  }

  /** Both occur: with arguments that are not JSON, and with arguments that are null. */
  lemma BothLossesOccur()
    ensures exists env :: LosesResponse(env)
    ensures exists env :: LosesToolCall(env)
  {
    OneCallAnswers(Malformed(""));
    ResponseIsLost(OneCall(Malformed("")), BAD_RESPONSE);
    OneCallAnswers(Value(Null));
    ToolCallIsLost(OneCall(Value(Null)), BAD_RESPONSE, BAD_CALL);
  }
}
