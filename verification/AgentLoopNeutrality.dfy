/** Recording does not change what the loop does, except exactly where arguments
    fail to decode. */
module AgentLoopNeutrality {
  import opened Wrappers
  import opened Collections
  import opened ToolExecution
  import opened TrajectoryRecorder
  import opened AgentLoop
  import opened AgentLoopProperties
  import opened AgentLoopRecording

  // ----- Recording does not change the run -----

  /** The state without its recording. */
  function Bare(s: State): State {
    s.(recording := None)
  }

  lemma ToolBare(env: Env, s: State, execution: Result<ToolExecutionResult>)
    requires s.pending != []
    ensures Bare(AfterExecution(env, Started(s), s.pending[0], execution))
         == AfterExecution(env, Started(Bare(s)), s.pending[0], execution)
  {
  }

  /** The response a step receives without a recorder and would lose with one. */
  ghost predicate WouldLose(env: Env, s: State) {
    && s.pending == [] && s.steps < env.maxSteps && !env.cancelled(|s.trace|) && CanChat(env)
    && ReplyAt(env, s).Responded? && Undecodable(env, ReplyAt(env, s).response.toolCalls)
  }

  lemma ResponseBare(env: Env, s: State, r: Response)
    requires s.recording.Some? && RecordedAt(env, s, r).Ok?
    ensures Bare(AfterRecording(env, Counted(Asked(env, s), r), r, RecordedAt(env, s, r)))
         == AfterRecording(env, Counted(Asked(env, Bare(s)), r), r, Ok(None))
  {
  }

  lemma EndsBare(env: Env, s: State, message: string)
    ensures Bare(ExhaustsSteps(s)) == ExhaustsSteps(Bare(s))
    ensures Bare(Cancels(Check(env, s))) == Cancels(Check(env, Bare(s)))
    ensures Bare(Fails(Check(env, s), message)) == Fails(Check(env, Bare(s)), message)
    ensures Bare(Fails(Asked(env, s), message)) == Fails(Asked(env, Bare(s)), message)
  {
  }

  lemma StepBare(env: Env, s: State)
    requires s.result.None? && s.recording.Some? && !WouldLose(env, s)
    ensures Bare(Step(env, s)) == Step(env, Bare(s))
    ensures Step(env, s).recording.Some?
  {
    StepRecords(env, s);
    if s.pending != [] {
      ToolBare(env, s, Perform(env, s.toolCalls, s.pending[0]));
    } else if s.steps >= env.maxSteps || env.cancelled(|s.trace|) {
      EndsBare(env, s, "");
    } else if !CanChat(env) {
      EndsBare(env, s, "Provider does not support chat");
    } else {
      match ReplyAt(env, s)
      case ProviderThrew(message) => EndsBare(env, s, message);
      case Responded(r) =>
        LostExactly(env, s, r);
        ResponseBare(env, s, r);
    }
  }

  /** Steps only go up, and the messages only grow. */
  lemma StateGrows(env: Env, s: State)
    ensures Final(env, s).result.Some?
    ensures Final(env, s).steps >= s.steps && s.messages <= Final(env, s).messages
  {
    var inv := (x: State) => x.steps >= s.steps && s.messages <= x.messages;
    forall x: State | inv(x) && x.result.None? ensures inv(Step(env, x)) {
      StepMoves(env, x);
    }
    Invariant(env, inv, s);
  }

  /** The first undecodable response splits the two runs: the recorded one fails
      there... */
  lemma RecordedRunStops(env: Env, s: State)
    requires s.result.None? && s.recording.Some? && WouldLose(env, s)
    ensures Final(env, s).result.Some? && Final(env, s).result.value.totalSteps == s.steps
  {
    var r := ReplyAt(env, s).response;
    LostExactly(env, s, r);
    StepMoves(env, s);
    assert MoveOf(env, s) == ResponseLost(r);
    RunSteps(env, s);
  }

  lemma PendingCounts(env: Env, s: State)
    requires s.result.None? && s.pending != []
    ensures Final(env, s).steps > s.steps && s.messages <= Final(env, s).messages
  {
    StepMoves(env, s);
    RunSteps(env, s);
    StateGrows(env, Step(env, s));
  }

  lemma RequestedGrows(a: seq<Message>, b: seq<Message>)
    requires a <= b
    ensures Requested(a) <= Requested(b)
  {
    FlatMapConcat(Requests, a, b[|a|..]);
    assert b == a + b[|a|..];
  }

  /** ...and the other begins a round, so its first tool counts. */
  lemma BareRunGoesOn(env: Env, s: State)
    requires s.result.None? && s.recording.None? && WouldLose(env, s)
    ensures Final(env, s).steps > s.steps
    ensures Undecodable(env, Requested(Final(env, s).messages))
  {
    var r := ReplyAt(env, s).response;
    LostExactly(env, s, r);
    StepMoves(env, s);
    assert MoveOf(env, s) == NewRound(r);
    var u := Step(env, s);
    MoveFolds(env, s, NewRound(r), u);
    RunSteps(env, s);
    PendingCounts(env, u);
    RequestedGrows(u.messages, Final(env, u).messages);
    var c :| c in r.toolCalls && !Decodes(env, c);
    assert c in Requested(u.messages);
  }

  /** A step that loses nothing takes both runs to equal states. */
  lemma StepDecodes(env: Env, s: State)
    requires s.result.None? && s.recording.Some? && !WouldLose(env, s) && !Undecodable(env, Requested(s.messages))
    ensures var u := Step(env, s);
            && u.recording.Some? && !Undecodable(env, Requested(u.messages))
            && (u.result.Some? ==> u.result.value.totalSteps == u.steps)
            && Bare(u) == Step(env, Bare(s))
  {
    StepBare(env, s);
    StepMoves(env, s);
    MoveFolds(env, s, MoveOf(env, s), Step(env, s));
    if MoveOf(env, s).NewRound? { CountedReply(env, s); }
  }

  /** From equal states, either both runs end the same or the recorded one ends
      with fewer steps because the other met arguments that do not decode. */
  lemma {:induction false} RunsCompare(env: Env, s: State)
    requires s.recording.Some? && !Undecodable(env, Requested(s.messages))
    requires s.result.Some? ==> s.result.value.totalSteps == s.steps
    ensures !Undecodable(env, Requested(Final(env, Bare(s)).messages)) ==> Bare(Final(env, s)) == Final(env, Bare(s))
    ensures Undecodable(env, Requested(Final(env, Bare(s)).messages)) ==>
              Final(env, s).result.Some? && Final(env, s).result.value.totalSteps < Final(env, Bare(s)).steps
    decreases Remaining(env, s), |s.pending|, s.result.None?
  {
    if s.result.Some? {
    } else {
      if WouldLose(env, s) {
        RecordedRunStops(env, s);
        BareRunGoesOn(env, Bare(s));
      } else {
        StepDecodes(env, s);
        StepMoves(env, s);
        RunSteps(env, s);
        RunSteps(env, Bare(s));
        RunsCompare(env, Step(env, s));
      }
    }
  }

  /** Recording is neutral exactly when all arguments decode: the run with a
      recorder has the same result as the one without if and only if no call
      requested in the latter has undecodable arguments; and then the two runs
      also exchange the same messages in the same order of events. */
  lemma RecordingIsNeutral(env: Env, recording: Recording)
    ensures var a, b := Run(env, Some(recording)), Run(env, None);
            && a.result.Some? && b.result.Some?
            && (a.result == b.result <==> forall c :: c in Requested(b.messages) ==> Decodes(env, c))
            && (a.result == b.result ==> a.messages == b.messages && a.trace == b.trace)
  {
    var a, b := Run(env, Some(recording)), Run(env, None);
    var start := Initial(env, Some(recording));
    NothingRequested(env);
    RunsCompare(env, start);
    assert Bare(start) == Initial(env, None);
    ResultReports(env, Some(recording));
    ResultReports(env, None);
    assert (forall c :: c in Requested(b.messages) ==> Decodes(env, c)) <==> !Undecodable(env, Requested(b.messages));
    assert Bare(a) == b ==> a.result == b.result && a.messages == b.messages && a.trace == b.trace;
  }

  /** When the first response requests arguments that do not decode, recording changes
      the result: the recorded run fails at once, and the other one goes on. */
  lemma RecordingMatters(env: Env, r: Response)
    requires AnswersFirst(env, r) && Undecodable(env, r.toolCalls)
    ensures Run(env, Some(FRESH)).result != Run(env, None).result
  {
    FirstMove(env, None, r);
    BareRunGoesOn(env, Initial(env, None));
    RecordingIsNeutral(env, FRESH);
  }

  /** Which occurs, with arguments that are not JSON. */
  lemma RecordingCanMatter()
    ensures exists env :: Run(env, Some(FRESH)).result != Run(env, None).result
  {
    var env := OneCall(Malformed(""));
    OneCallAnswers(Malformed(""));
    RecordingMatters(env, BAD_RESPONSE);
    assert Run(env, Some(FRESH)).result != Run(env, None).result;
  }
}
