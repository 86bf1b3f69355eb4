/** Why a run of the agent loop fails: the error of every failed run is that of the
    last thing it did. */
module AgentLoopFailures {
  import opened Wrappers
  import T = Trajectory
  import opened TrajectoryRecorder
  import opened AgentLoop
  import opened AgentLoopProperties
  import opened AgentLoopAnswers

  /** The first call whose arguments do not decode is the `k`-th. */
  ghost predicate FirstUndecodable(env: Env, calls: seq<ToolCall>, k: int) {
    0 <= k < |calls| && !Decodes(env, calls[k]) && forall j :: 0 <= j < k ==> Decodes(env, calls[j])
  }

  /** The provider can be called: with tools if there are any and it takes them, or
      without. */
  predicate Callable(env: Env) {
    env.supportsChat || (env.supportsTools && env.tools != map[])
  }

  /** What is said about a run that failed after these events: behind a check, that the
      provider cannot be called; behind a provider call, the provider's error or, with a
      recorder, that of the first arguments which do not decode; behind a tool, that its
      arguments cannot be read or validation raised. */
  ghost predicate Explained(env: Env, recorded: bool, trace: seq<Event>, message: string) {
    |trace| > 0 &&
    match trace[|trace| - 1]
    case Checked(_) => !Callable(env) && message == "Provider does not support chat"
    case Called(_, sent) =>
      ProviderCalls(trace) > 0 &&
      (match env.provider(ProviderCalls(trace) - 1, sent)
       case ProviderThrew(m) => message == m
       case Responded(r) =>
         recorded && exists k :: FirstUndecodable(env, r.toolCalls, k)
                                 && message == Decode(env, r.toolCalls[k].arguments).message)
    case Ran(c) =>
      if c.arguments != "" && env.decode(c.arguments).Unreadable? then message == env.decode(c.arguments).message
      else Breaks(env, c)
  }

  ghost predicate FailureKept(env: Env, s: State) {
    && (forall t :: 0 <= t < |s.trace| && s.trace[t].Called? ==> Callable(env))
    && match s.result
       case None => s.llmCalls == ProviderCalls(s.trace)
       case Some(r) =>
         r.status == T.FailedStatus ==>
           r.error.Some? && Explained(env, s.recording.Some?, s.trace, r.error.value)
  }

  lemma {:induction false} UndecodableMessage(env: Env, calls: seq<ToolCall>, now: T.Time)
    requires RequestedRecords(env, calls, now).Raise?
    ensures exists k :: FirstUndecodable(env, calls, k)
                        && Decode(env, calls[k].arguments).message == RequestedRecords(env, calls, now).message
  {
    if !Decodes(env, calls[0]) {
      assert FirstUndecodable(env, calls, 0);
    } else {
      UndecodableMessage(env, calls[1..], now);
      var k :| FirstUndecodable(env, calls[1..], k)
               && Decode(env, calls[1..][k].arguments).message == RequestedRecords(env, calls[1..], now).message;
      assert FirstUndecodable(env, calls, k + 1);
    }
  }

  lemma ToolFailure(env: Env, s: State)
    requires FailureKept(env, s) && s.result.None? && s.pending != []
    ensures FailureKept(env, Step(env, s))
  {
    var m, u, c := MoveOf(env, s), Step(env, s), s.pending[0];
    StepMoves(env, s);
    MoveFolds(env, s, m, u);
    if m.ToolRaised? {
      RaiseMeans(env, s.toolCalls, c);
      assert u.trace[|u.trace| - 1] == Ran(c);
    }
  }

  lemma ResponseFailure(env: Env, s: State, r: Response)
    requires s.recording.Some? && RecordedAt(env, s, r).Raise?
    ensures exists k :: FirstUndecodable(env, r.toolCalls, k)
                        && Decode(env, r.toolCalls[k].arguments).message == RecordedAt(env, s, r).message
  {
    UndecodableMessage(env, r.toolCalls, env.now(|Asked(env, s).trace|));
  }

  lemma CallFailure(env: Env, s: State)
    requires FailureKept(env, s) && s.result.None? && s.pending == []
    requires s.steps < env.maxSteps && !env.cancelled(|s.trace|)
    ensures FailureKept(env, Step(env, s))
  {
    var m, u := MoveOf(env, s), Step(env, s);
    StepMoves(env, s);
    MoveFolds(env, s, m, u);
    if CanChat(env) {
      assert u.trace[|u.trace| - 1] == CallAt(s);
      if ReplyAt(env, s).Responded? && RecordedAt(env, s, ReplyAt(env, s).response).Raise? {
        ResponseFailure(env, s, ReplyAt(env, s).response);
      }
    }
  }

  lemma FailureStep(env: Env, s: State)
    requires FailureKept(env, s) && s.result.None?
    ensures FailureKept(env, Step(env, s))
  {
    if s.pending != [] {
      ToolFailure(env, s);
    } else if s.steps < env.maxSteps && !env.cancelled(|s.trace|) {
      CallFailure(env, s);
    }
  }

  /** No run calls a provider that cannot be called, and the error of a failed run says
      why: it is that of the last event of the run. */
  lemma FailuresExplained(env: Env, recording: Option<Recording>)
    ensures var s := Run(env, recording);
            && s.result.Some?
            && (forall t :: 0 <= t < |s.trace| && s.trace[t].Called? ==> Callable(env))
            && (s.result.value.status == T.FailedStatus ==>
                  && s.result.value.error.Some?
                  && Explained(env, s.recording.Some?, s.trace, s.result.value.error.value))
  {
    var inv := (x: State) => FailureKept(env, x);
    forall x: State | inv(x) && x.result.None? ensures inv(Step(env, x)) {
      FailureStep(env, x);
    }
    NothingRequested(env);
    Invariant(env, inv, Initial(env, recording));
  }
}
