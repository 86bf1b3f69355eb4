/** What the tools' outcomes send back to the provider: every executed call is
    answered with the text its tool returned, or with what went wrong. */
module AgentLoopAnswers {
  import opened Wrappers
  import opened Collections
  import opened ToolExecution
  import opened TrajectoryRecorder
  import opened AgentLoop
  import opened AgentLoopProperties

  /** The arguments text stands for this value: none for an empty object, JSON for the
      value it decodes to, and text that is not JSON for an empty object as well. */
  ghost predicate StandsFor(env: Env, arguments: string, json: Json) {
    if arguments == "" then json == Object(map[])
    else
      match env.decode(arguments)
      case Value(v) => json == v
      case Malformed(_) => json == Object(map[])
      case Unreadable(_) => false
  }

  /** The content that answers the `n`-th executed call: what the tool returned if it
      ran and returned, and otherwise the executor's error. */
  ghost predicate AnswersCall(env: Env, n: nat, call: ToolCall, content: string) {
    exists json :: StandsFor(env, call.arguments, json)
                   && if Runs(env.tools, env.functions, call.name, json)
                         && env.functions[call.name](n, json.fields).Returned?
                      then content == env.functions[call.name](n, json.fields).text
                      else exists error :: content == "Error: " + error
                                           && FailsWith(env.tools, env.functions, n, call.name, json, error)
  }

  lemma AnswerMeans(env: Env, n: nat, call: ToolCall)
    requires Perform(env, n, call).Ok?
    ensures AnswersCall(env, n, call, AnswerText(Perform(env, n, call).value))
  {
    var json := ArgumentsOf(env, call);
    var r := Perform(env, n, call).value;
    ExecuteExactly(env.tools, env.functions, n, call.name, json);
    assert StandsFor(env, call.arguments, json);
    if !r.IsSuccess() {
      assert AnswerText(r) == "Error: " + r.error.value;
    }
  }

  /** Validation raises on whatever value the arguments stand for; they may stand for
      none. */
  ghost predicate Breaks(env: Env, call: ToolCall) {
    forall json :: StandsFor(env, call.arguments, json) ==> ValidationRaises(env.tools, call.name, json)
  }

  lemma RaiseMeans(env: Env, n: nat, call: ToolCall)
    requires Perform(env, n, call).Raise?
    ensures Breaks(env, call)
  {
    ExecuteRaisesExactly(env.tools, env.functions, n, call.name, ArgumentsOf(env, call));
  }

  predicate IsAnswer(m: Message) {
    m.Tool?
  }

  /** The answers of a conversation, in order. */
  function AnswersIn(messages: seq<Message>): seq<Message> {
    Filter(IsAnswer, messages)
  }

  /** One answer for each executed call, in order, up to one whose execution raised. */
  ghost predicate AnswersKept(env: Env, s: State) {
    var answers, executed := AnswersIn(s.messages), Executed(s.trace);
    && |executed| == s.toolCalls == |answers| + (if EndsInTool(s) then 1 else 0)
    && (s.result.None? ==> !EndsInTool(s))
    && (EndsInTool(s) ==> Breaks(env, executed[s.toolCalls - 1]))
    && forall i :: 0 <= i < |answers| ==>
         && answers[i].Tool? && answers[i].toolCallId == executed[i].id
         && AnswersCall(env, i, executed[i], answers[i].content)
  }

  lemma AnswersSnoc(messages: seq<Message>, m: Message)
    ensures AnswersIn(messages + [m]) == AnswersIn(messages) + if m.Tool? then [m] else []
  {
    assert (messages + [m])[..|messages|] == messages;
  }

  lemma AnswersMove(env: Env, s: State, m: Move, u: State)
    requires AnswersKept(env, s) && s.result.None? && Moves(env, s, m, u)
    requires m.ToolAnswered? ==> AnswersCall(env, s.toolCalls, s.pending[0], m.content)
    requires m.ToolRaised? ==> Breaks(env, s.pending[0])
    ensures AnswersKept(env, u)
  {
    MoveFolds(env, s, m, u);
    if AddedBy(s, m) == [] {
      assert u.messages == s.messages;
    } else {
      AnswersSnoc(s.messages, AddedBy(s, m)[0]);
      assert u.messages == s.messages + [AddedBy(s, m)[0]];
    }
  }

  lemma AnswersStep(env: Env, s: State)
    requires AnswersKept(env, s) && s.result.None?
    ensures AnswersKept(env, Step(env, s))
  {
    StepMoves(env, s);
    if MoveOf(env, s).ToolAnswered? { AnswerMeans(env, s.toolCalls, s.pending[0]); }
    if MoveOf(env, s).ToolRaised? { RaiseMeans(env, s.toolCalls, s.pending[0]); }
    AnswersMove(env, s, MoveOf(env, s), Step(env, s));
  }

  lemma NoAnswers(env: Env)
    ensures AnswersIn(Prefix(env)) == []
  {
    AnswersSnoc([], System(env.systemPrompt));
    AnswersSnoc([], User(env.userMessage));
    AnswersSnoc([System(env.systemPrompt)], User(env.userMessage));
    assert [] + [System(env.systemPrompt)] == [System(env.systemPrompt)];
    assert [] + [User(env.userMessage)] == [User(env.userMessage)];
  }

  /** In every run the `i`-th executed call is answered by the `i`-th tool message, under
      its id, with the text that its tool returned, or with `Error: ` and the reason why
      it did not run or return; only a last call whose execution raised has no answer. */
  lemma ExecutedAreAnswered(env: Env, recording: Option<Recording>)
    ensures var s := Run(env, recording);
            && s.result.Some?
            && var answers, executed := AnswersIn(s.messages), Executed(s.trace);
               && |executed| == |answers| + (if EndsInTool(s) then 1 else 0)
               && (EndsInTool(s) ==> Breaks(env, executed[|executed| - 1]))
               && forall i :: 0 <= i < |answers| ==>
                    && answers[i].Tool? && answers[i].toolCallId == executed[i].id
                    && AnswersCall(env, i, executed[i], answers[i].content)
  {
    var inv := (x: State) => AnswersKept(env, x);
    forall x: State | inv(x) && x.result.None? ensures inv(Step(env, x)) {
      AnswersStep(env, x);
    }
    NoAnswers(env);
    Invariant(env, inv, Initial(env, recording));
  }
}
