/** The recorded trajectory as a transcript of the run: its LLM records are the
    provider's responses, its tool records the executed calls with their answers, and
    its history the same turns in order. */
module AgentLoopTranscript {
  import opened Wrappers
  import opened Collections
  import T = Trajectory
  import opened TrajectoryRecorder
  import opened AgentLoop
  import opened AgentLoopProperties
  import opened AgentLoopTotals
  import opened AgentLoopAnswers
  import opened AgentLoopRecording

  function LlmOf(step: T.Step): seq<T.LlmCallRecord> {
    if step.llmCall.Some? then [step.llmCall.value] else []
  }

  function ToolOf(step: T.Step): seq<T.ToolCallRecord> {
    if step.toolCall.Some? then [step.toolCall.value] else []
  }

  /** The turn of the recorded conversation that belongs to a step. */
  function TurnOf(step: T.Step): seq<T.HistoryEntry> {
    match step.stepType
    case LlmCallStep =>
      if step.llmCall.Some? then [T.AssistantTurn(step.content, Some(step.llmCall.value.toolCallsRequested))] else []
    case ToolCallStep => if step.toolCall.Some? then [T.ToolTurn(step.toolCall.value.toolCallId, step.content)] else []
    case FinalAnswerStep => [T.AssistantTurn(step.content, None)]
    case _ => []
  }

  /** The records stand for the first of these responses and for all of these answers. */
  ghost predicate Transcript(env: Env, rec: Recording, rs: seq<Response>, executed: seq<ToolCall>,
                             answers: seq<Message>)
  {
    var llm, tools := FlatMap(LlmOf, rec.steps), FlatMap(ToolOf, rec.steps);
    && |llm| <= |rs| && (forall i :: 0 <= i < |llm| ==> Describes(env, llm[i], rs[i]))
    && |tools| == |answers| <= |executed|
    && (forall i :: 0 <= i < |tools| ==>
          answers[i].Tool? && Transcribes(env, tools[i], executed[i], answers[i].content))
    && rec.history == FlatMap(TurnOf, rec.steps)
  }

  lemma OneMoreStep(rec: Recording, step: T.Step)
    ensures var steps := rec.steps + [step];
            && FlatMap(LlmOf, steps) == FlatMap(LlmOf, rec.steps) + LlmOf(step)
            && FlatMap(ToolOf, steps) == FlatMap(ToolOf, rec.steps) + ToolOf(step)
            && FlatMap(TurnOf, steps) == FlatMap(TurnOf, rec.steps) + TurnOf(step)
  {
    assert (rec.steps + [step])[..|rec.steps|] == rec.steps;
  }

  /** One more response, recorded. */
  lemma LlmTranscribed(env: Env, rec: Recording, call: T.LlmCallRecord, now: T.Time, rs: seq<Response>, r: Response,
                       executed: seq<ToolCall>, answers: seq<Message>)
    requires Transcript(env, rec, rs, executed, answers) && |FlatMap(LlmOf, rec.steps)| == |rs|
    requires Describes(env, call, r)
    ensures Transcript(env, rec.WithLlmCall(call, "", now), rs + [r], executed, answers)
    ensures |FlatMap(LlmOf, rec.WithLlmCall(call, "", now).steps)| == |rs| + 1
  {
    var after := rec.WithLlmCall(call, "", now);
    OneMoreStep(rec, after.steps[|rec.steps|]);
    assert FlatMap(ToolOf, rec.steps) + [] == FlatMap(ToolOf, rec.steps);
  }

  /** The final answer adds a turn and no record. */
  lemma FinalTranscribed(env: Env, rec: Recording, content: string, now: T.Time, rs: seq<Response>,
                         executed: seq<ToolCall>, answers: seq<Message>)
    requires Transcript(env, rec, rs, executed, answers)
    ensures Transcript(env, rec.WithFinalAnswer(content, now), rs, executed, answers)
    ensures FlatMap(LlmOf, rec.WithFinalAnswer(content, now).steps) == FlatMap(LlmOf, rec.steps)
  {
    var after := rec.WithFinalAnswer(content, now);
    OneMoreStep(rec, after.steps[|rec.steps|]);
    assert FlatMap(ToolOf, rec.steps) + [] == FlatMap(ToolOf, rec.steps);
    assert FlatMap(LlmOf, rec.steps) + [] == FlatMap(LlmOf, rec.steps);
  }

  /** One more answered call, recorded. */
  lemma AnswerTranscribed(env: Env, rec: Recording, call: T.ToolCallRecord, now: T.Time, rs: seq<Response>,
                          executed: seq<ToolCall>, answers: seq<Message>, c: ToolCall, content: string)
    requires Transcript(env, rec, rs, executed, answers) && |executed| == |answers|
    requires Transcribes(env, call, c, content)
    ensures Transcript(env, rec.WithToolCall(call, now), rs, executed + [c], answers + [Tool(c.id, content)])
    ensures FlatMap(LlmOf, rec.WithToolCall(call, now).steps) == FlatMap(LlmOf, rec.steps)
  {
    var after := rec.WithToolCall(call, now);
    OneMoreStep(rec, after.steps[|rec.steps|]);
    assert FlatMap(LlmOf, rec.steps) + [] == FlatMap(LlmOf, rec.steps);
  }

  /** While the run goes on, every response has its record. */
  ghost predicate TranscriptKept(env: Env, s: State) {
    && s.recording.Some?
    && Transcript(env, s.recording.value, Responses(env, s.trace), Executed(s.trace), AnswersIn(s.messages))
    && (s.result.None? ==>
          && |FlatMap(LlmOf, s.recording.value.steps)| == |Responses(env, s.trace)|
          && s.llmCalls == |Responses(env, s.trace)| == ProviderCalls(s.trace))
  }

  /** Growing lists of responses and executed calls leave a transcript one. */
  lemma TranscriptGrows(env: Env, rec: Recording, rs: seq<Response>, executed: seq<ToolCall>, answers: seq<Message>,
                        more: seq<Response>, further: seq<ToolCall>)
    requires Transcript(env, rec, rs, executed, answers)
    ensures Transcript(env, rec, rs + more, executed + further, answers)
  {
  }

  /** Only the steps and the history matter. */
  lemma SameTranscript(env: Env, rec: Recording, other: Recording, rs: seq<Response>, executed: seq<ToolCall>,
                       answers: seq<Message>)
    requires Transcript(env, rec, rs, executed, answers) && other.steps == rec.steps && other.history == rec.history
    ensures Transcript(env, other, rs, executed, answers)
  {
  }

  /** What a move adds is in the transcript. */
  lemma AddedTranscribed(env: Env, s: State, m: Move, added: Recording)
    requires TranscriptKept(env, s) && AnswersKept(env, s) && s.result.None? && Adds(env, s, m, added)
    requires IsToolMove(m) ==> s.pending != []
    ensures Transcript(env, added, Responses(env, s.trace) + Received(m),
                       Executed(s.trace) + (if IsToolMove(m) then [s.pending[0]] else []),
                       AnswersIn(s.messages) + if m.ToolAnswered? then [Tool(s.pending[0].id, m.content)] else [])
    ensures !m.ResponseLost? ==> |FlatMap(LlmOf, added.steps)| == |Responses(env, s.trace) + Received(m)|
  {
    var rec, rs, executed, answers :=
      s.recording.value, Responses(env, s.trace), Executed(s.trace), AnswersIn(s.messages);
    assert executed + [] == executed && answers + [] == answers && rs + [] == rs;
    match m {
      case NewRound(r) =>
        var call, now :| Describes(env, call, r) && added == rec.WithLlmCall(call, "", now);
        LlmTranscribed(env, rec, call, now, rs, r, executed, answers);
      case FinalAnswer(r) =>
        var call, now, later :|
          Describes(env, call, r) && added == rec.WithLlmCall(call, "", now).WithFinalAnswer(r.content, later);
        LlmTranscribed(env, rec, call, now, rs, r, executed, answers);
        FinalTranscribed(env, rec.WithLlmCall(call, "", now), r.content, later, rs + [r], executed, answers);
      case ToolAnswered(content) =>
        var call, now :| Transcribes(env, call, s.pending[0], content) && added == rec.WithToolCall(call, now);
        AnswerTranscribed(env, rec, call, now, rs, executed, answers, s.pending[0], content);
      case ToolRaised =>
        TranscriptGrows(env, rec, rs, executed, answers, [], [s.pending[0]]);
      case _ =>
        TranscriptGrows(env, rec, rs, executed, answers, Received(m), []);
    }
  }

  /** What a step records, before the run is closed. */
  lemma StepAdds(env: Env, s: State) returns (added: Recording)
    requires s.result.None? && s.recording.Some?
    ensures Adds(env, s, MoveOf(env, s), added)
    ensures var u := Step(env, s);
            && u.recording.Some?
            && u.recording.value.steps == added.steps && u.recording.value.history == added.history
  {
    var m, u := MoveOf(env, s), Step(env, s);
    StepRecords(env, s);
    added :| && Adds(env, s, m, added)
             && match EndOf(env, s, m)
                case None => u.recording.value == added
                case Some(status) =>
                  && u.result.Some? && (status == T.FailedStatus ==> u.result.value.error.Some?)
                  && u.recording.value == Closed(added, status, u.result.value.error);
  }

  lemma AnswersAdded(s: State, m: Move, messages: seq<Message>)
    requires IsToolMove(m) ==> s.pending != []
    requires messages == s.messages + AddedBy(s, m)
    ensures AnswersIn(messages)
         == AnswersIn(s.messages) + if m.ToolAnswered? then [Tool(s.pending[0].id, m.content)] else []
  {
    if AddedBy(s, m) == [] {
      assert messages == s.messages && AnswersIn(s.messages) + [] == AnswersIn(s.messages);
    } else {
      AnswersSnoc(s.messages, AddedBy(s, m)[0]);
      assert messages == s.messages + [AddedBy(s, m)[0]];
    }
  }

  lemma TranscriptStep(env: Env, s: State)
    requires TranscriptKept(env, s) && AnswersKept(env, s) && s.result.None?
    ensures TranscriptKept(env, Step(env, s))
  {
    var m, u := MoveOf(env, s), Step(env, s);
    StepMoves(env, s);
    MoveIsTruthful(env, s);
    ResponsesMove(env, s, m, u);
    MoveFolds(env, s, m, u);
    AnswersAdded(s, m, u.messages);
    var added := StepAdds(env, s);
    AddedTranscribed(env, s, m, added);
    SameTranscript(env, added, u.recording.value, Responses(env, u.trace), Executed(u.trace), AnswersIn(u.messages));
  }

  /** With a fresh recorder, in every run: the `i`-th LLM record describes the `i`-th
      response, the `i`-th tool record the `i`-th executed call with the answer it got,
      every answer has a record, and the recorded history has the turn of each step. */
  lemma TrajectoryTranscribes(env: Env)
    ensures var s := Run(env, Some(FRESH));
            && s.result.Some? && s.recording.Some?
            && Transcript(env, s.recording.value, Responses(env, s.trace), Executed(s.trace), AnswersIn(s.messages))
  {
    var inv := (x: State) => TranscriptKept(env, x) && AnswersKept(env, x);
    forall x: State | inv(x) && x.result.None? ensures inv(Step(env, x)) {
      TranscriptStep(env, x);
      AnswersStep(env, x);
    }
    NoAnswers(env);
    Invariant(env, inv, Initial(env, Some(FRESH)));
  }
}
