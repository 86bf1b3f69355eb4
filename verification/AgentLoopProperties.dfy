/** What every run of the agent loop keeps, proved for every environment: the
    shape of the conversation, the budget, and what cancellation stops. */
module AgentLoopProperties {
  import opened Wrappers
  import opened Collections
  import opened ToolExecution
  import T = Trajectory
  import opened TrajectoryRecorder
  import opened AgentLoop

  // ----- The moves of the loop -----

  /** What one step can do, recording aside. */
  datatype Move =
    | Exhausted
    | CancelledAtTop
    | CannotChat
    | ProviderFailed
    | ResponseLost(r: Response)
    | FinalAnswer(r: Response)
    | NewRound(r: Response)
    | ToolRaised
    | ToolAnswered(content: string)

  predicate IsToolMove(m: Move) {
    m.ToolRaised? || m.ToolAnswered?
  }

  /** A response arrived, so it was counted. */
  predicate IsCounted(m: Move) {
    m.ResponseLost? || m.FinalAnswer? || m.NewRound?
  }

  /** The provider call a state makes. */
  function CallAt(s: State): Event {
    Called(s.messages, Map(DictToMessage, s.messages))
  }

  /** The events a move adds to the trace. */
  function EventsOf(env: Env, s: State, m: Move): seq<Event>
    requires IsToolMove(m) ==> s.pending != []
  {
    match m
    case Exhausted => []
    case CancelledAtTop => [Checked(true)]
    case CannotChat => [Checked(false)]
    case ToolRaised => [Ran(s.pending[0])]
    case ToolAnswered(_) => [Ran(s.pending[0]), Checked(env.cancelled(|s.trace| + 1))]
    case _ => [Checked(false), CallAt(s)]
  }

  /** The messages a move adds to the conversation. */
  function AddedBy(s: State, m: Move): seq<Message>
    requires IsToolMove(m) ==> s.pending != []
  {
    match m
    case NewRound(r) => [Assistant(r.content, r.toolCalls)]
    case ToolAnswered(content) => [Tool(s.pending[0].id, content)]
    case _ => []
  }

  /** How a move ends the run, if it does. */
  function EndOf(env: Env, s: State, m: Move): Option<T.Status> {
    match m
    case Exhausted => Some(T.MaxStepsReached)
    case CancelledAtTop => Some(T.Cancelled)
    case FinalAnswer(_) => Some(T.Completed)
    case NewRound(_) => None
    case ToolAnswered(_) => if env.cancelled(|s.trace| + 1) then Some(T.Cancelled) else None
    case _ => Some(T.FailedStatus)
  }

  predicate Explains(status: T.Status, error: Option<string>) {
    match status
    case Completed => error == None
    case Cancelled => error == Some("Agent run cancelled")
    case MaxStepsReached => error == Some("Maximum steps reached without final answer")
    case _ => error.Some?
  }

  /** The result reports the counters of the state, and why the run ended. */
  ghost predicate Reports(s: State, status: T.Status, m: Move) {
    && s.result.Some?
    && s.result.value == LoopResult(
         status == T.Completed, if m.FinalAnswer? then m.r.content else "", s.steps, s.llmCalls, s.toolCalls,
         s.tokensInput, s.tokensOutput, s.cost, s.result.value.error, status)
    && Explains(status, s.result.value.error)
  }

  /** `u` is reached from `s` by `m`. */
  ghost predicate Moves(env: Env, s: State, m: Move, u: State) {
    && (IsToolMove(m) <==> s.pending != [])
    && (m.Exhausted? ==> s.steps >= env.maxSteps)
    && (!m.Exhausted? && !IsToolMove(m) ==>
          s.steps < env.maxSteps && (m.CancelledAtTop? <==> env.cancelled(|s.trace|)))
    && (m.FinalAnswer? ==> m.r.toolCalls == [])
    && (m.NewRound? ==> m.r.toolCalls != [])
    && u.trace == s.trace + EventsOf(env, s, m)
    && u.messages == s.messages + AddedBy(s, m)
    && u.pending == (if IsToolMove(m) then s.pending[1..] else if m.NewRound? then m.r.toolCalls else [])
    && u.steps == s.steps + (if IsToolMove(m) then 1 else 0)
    && u.toolCalls == s.toolCalls + (if IsToolMove(m) then 1 else 0)
    && u.llmCalls == s.llmCalls + (if IsCounted(m) then 1 else 0)
    && u.tokensInput == s.tokensInput + (if IsCounted(m) then m.r.inputTokens else 0)
    && u.tokensOutput == s.tokensOutput + (if IsCounted(m) then m.r.outputTokens else 0)
    && u.cost == s.cost + (if IsCounted(m) then m.r.costUsd else 0.0)
    && match EndOf(env, s, m)
       case None => u.result.None?
       case Some(status) => Reports(u, status, m)
  }

  /** The state in which a step's provider call is made, with the call logged. */
  function Asked(env: Env, s: State): State {
    LogCall(Check(env, s))
  }

  function ReplyAt(env: Env, s: State): Reply {
    Ask(env, Check(env, s))
  }

  function RecordedAt(env: Env, s: State, r: Response): Result<Option<Recording>> {
    Recorded(env, Counted(Asked(env, s), r), r)
  }

  function ToolMove(execution: Result<ToolExecutionResult>): Move {
    if execution.Raise? then ToolRaised else ToolAnswered(AnswerText(execution.value))
  }

  function ResponseMove(r: Response, recorded: Result<Option<Recording>>): Move {
    if recorded.Raise? then ResponseLost(r) else if r.toolCalls == [] then FinalAnswer(r) else NewRound(r)
  }

  function MoveAtTop(env: Env, s: State): Move {
    if s.steps >= env.maxSteps then Exhausted
    else if env.cancelled(|s.trace|) then CancelledAtTop
    else if !CanChat(env) then CannotChat
    else
      match ReplyAt(env, s)
      case ProviderThrew(_) => ProviderFailed
      case Responded(r) => ResponseMove(r, RecordedAt(env, s, r))
  }

  /** The move a state makes. */
  function MoveOf(env: Env, s: State): Move {
    if s.pending != [] then ToolMove(Perform(env, s.toolCalls, s.pending[0])) else MoveAtTop(env, s)
  }

  lemma ToolMoves(env: Env, s: State, execution: Result<ToolExecutionResult>)
    requires s.result.None? && s.pending != []
    ensures Moves(env, s, ToolMove(execution), AfterExecution(env, Started(s), s.pending[0], execution))
  {
  }

  lemma ResponseMoves(env: Env, s: State, r: Response, recorded: Result<Option<Recording>>)
    requires s.result.None? && s.pending == [] && s.steps < env.maxSteps && !env.cancelled(|s.trace|)
    ensures Moves(env, s, ResponseMove(r, recorded), AfterRecording(env, Counted(Asked(env, s), r), r, recorded))
  {
  }

  lemma FailureMoves(env: Env, s: State, message: string)
    requires s.result.None? && s.pending == [] && s.steps < env.maxSteps && !env.cancelled(|s.trace|)
    ensures Moves(env, s, CannotChat, Fails(Check(env, s), message))
    ensures Moves(env, s, ProviderFailed, Fails(Asked(env, s), message))
  {
  }

  lemma EndMoves(env: Env, s: State)
    requires s.result.None? && s.pending == []
    ensures s.steps >= env.maxSteps ==> Moves(env, s, Exhausted, ExhaustsSteps(s))
    ensures s.steps < env.maxSteps && env.cancelled(|s.trace|) ==> Moves(env, s, CancelledAtTop, Cancels(Check(env, s)))
  {
  }

  /** Every step is the move its state makes. */
  lemma StepMoves(env: Env, s: State)
    requires s.result.None?
    ensures Moves(env, s, MoveOf(env, s), Step(env, s))
  {
    if s.pending != [] {
      ToolMoves(env, s, Perform(env, s.toolCalls, s.pending[0]));
    } else if s.steps >= env.maxSteps || env.cancelled(|s.trace|) {
      EndMoves(env, s);
    } else if !CanChat(env) {
      FailureMoves(env, s, "Provider does not support chat");
    } else {
      match ReplyAt(env, s)
      case ProviderThrew(message) => FailureMoves(env, s, message);
      case Responded(r) => ResponseMoves(env, s, r, RecordedAt(env, s, r));
    }
  }

  lemma {:induction false} DecodingFails(env: Env, calls: seq<ToolCall>, now: T.Time)
    ensures RequestedRecords(env, calls, now).Raise? <==> exists c :: c in calls && !Decodes(env, c)
  {
    if calls == [] {
    } else {
      DecodingFails(env, calls[1..], now);
      assert calls[0] in calls && forall c :: c in calls <==> c == calls[0] || c in calls[1..];
    }
  }

  /** A response is lost exactly when there is a recorder and some requested
      arguments do not decode. */
  lemma LostExactly(env: Env, s: State, r: Response)
    ensures RecordedAt(env, s, r).Raise? <==>
              s.recording.Some? && exists c :: c in r.toolCalls && !Decodes(env, c)
  {
    DecodingFails(env, r.toolCalls, env.now(|Asked(env, s).trace|));
  }

  /** Invariants carry over to the end of a run. */
  lemma {:induction false} Invariant(env: Env, inv: State -> bool, s: State)
    requires inv(s)
    requires forall x :: inv(x) && x.result.None? ==> inv(Step(env, x))
    ensures inv(Final(env, s)) && Final(env, s).result.Some?
    decreases Remaining(env, s), |s.pending|, s.result.None?
  {
    if s.result.Some? {
    } else {
      Invariant(env, inv, Step(env, s));
    }
  }

  // ----- The conversation -----

  /** One tool message for each call, with its id, in the same order. */
  ghost predicate Answers(messages: seq<Message>, calls: seq<ToolCall>) {
    |messages| == |calls|
    && forall i :: 0 <= i < |calls| ==> messages[i].Tool? && messages[i].toolCallId == calls[i].id
  }

  /** Complete rounds, each an assistant message that requests calls followed by
      their answers; the last round may still lack the answers of `open`. */
  ghost predicate Rounds(body: seq<Message>, open: seq<ToolCall>)
    decreases |body|
  {
    if body == [] then open == []
    else
      && body[0].Assistant? && body[0].toolCalls != []
      && var calls := body[0].toolCalls;
         if |body| > |calls| then Answers(body[1..|calls| + 1], calls) && Rounds(body[|calls| + 1..], open)
         else Answers(body[1..], calls[..|body| - 1]) && open == calls[|body| - 1..]
  }

  /** The initial messages, then rounds. */
  ghost predicate Conversation(env: Env, messages: seq<Message>, open: seq<ToolCall>) {
    Prefix(env) <= messages && Rounds(messages[|Prefix(env)|..], open)
  }

  /** Where a further message goes, behind a complete first round or within it. */
  lemma RoundSlices(body: seq<Message>, m: Message, k: nat)
    requires body != []
    ensures (body + [m])[0] == body[0] && (body + [m])[1..] == body[1..] + [m]
    ensures |body| > k ==> (body + [m])[1..k + 1] == body[1..k + 1] && (body + [m])[k + 1..] == body[k + 1..] + [m]
  {
  }

  lemma {:induction false} RoundsOpen(body: seq<Message>, content: string, calls: seq<ToolCall>)
    requires Rounds(body, []) && calls != []
    ensures Rounds(body + [Assistant(content, calls)], calls)
    decreases |body|
  {
    if body == [] {
    } else {
      var k := |body[0].toolCalls|;
      RoundSlices(body, Assistant(content, calls), k);
      RoundsOpen(body[k + 1..], content, calls);
    }
  }

  /** The answer to a call of the last, unfinished round. */
  lemma LastRoundAnswer(body: seq<Message>, open: seq<ToolCall>, content: string)
    requires Rounds(body, open) && open != [] && |body| <= |body[0].toolCalls|
    ensures Rounds(body + [Tool(open[0].id, content)], open[1..])
  {
    var answer := Tool(open[0].id, content);
    var calls := body[0].toolCalls;
    var more := body + [answer];
    RoundSlices(body, answer, |calls|);
    assert open[0] == calls[|body| - 1];
    assert calls[..|body| - 1] + [open[0]] == calls[..|body|];
    if |body| == |calls| {
      assert more[1..|calls| + 1] == more[1..] && more[|calls| + 1..] == [];
      assert calls[..|body|] == calls;
    }
  }

  lemma {:induction false} RoundsAnswer(body: seq<Message>, open: seq<ToolCall>, content: string)
    requires Rounds(body, open) && open != []
    ensures Rounds(body + [Tool(open[0].id, content)], open[1..])
    decreases |body|
  {
    var k := |body[0].toolCalls|;
    if |body| > k {
      RoundSlices(body, Tool(open[0].id, content), k);
      RoundsAnswer(body[k + 1..], open, content);
    } else {
      LastRoundAnswer(body, open, content);
    }
  }

  lemma BodyExtends(prefix: seq<Message>, messages: seq<Message>, m: Message)
    requires prefix <= messages
    ensures prefix <= messages + [m] && (messages + [m])[|prefix|..] == messages[|prefix|..] + [m]
  {
  }

  lemma ConversationOpen(env: Env, messages: seq<Message>, content: string, calls: seq<ToolCall>)
    requires Conversation(env, messages, []) && calls != []
    ensures Conversation(env, messages + [Assistant(content, calls)], calls)
  {
    RoundsOpen(messages[|Prefix(env)|..], content, calls);
    BodyExtends(Prefix(env), messages, Assistant(content, calls));
  }

  lemma ConversationAnswer(env: Env, messages: seq<Message>, open: seq<ToolCall>, content: string)
    requires Conversation(env, messages, open) && open != []
    ensures Conversation(env, messages + [Tool(open[0].id, content)], open[1..])
  {
    RoundsAnswer(messages[|Prefix(env)|..], open, content);
    BodyExtends(Prefix(env), messages, Tool(open[0].id, content));
  }

  /** The last thing a run did was to start a tool: its execution raised. */
  predicate EndsInTool(s: State) {
    |s.trace| > 0 && s.trace[|s.trace| - 1].Ran?
  }

  /** Calls still owed an answer: the pending ones, after one that raised. */
  function Unanswered(s: State): seq<ToolCall> {
    (if EndsInTool(s) then [s.trace[|s.trace| - 1].call] else []) + s.pending
  }

  /** What the provider is sent for a conversation: the system prompt, if there is one,
      and the user's message, then the content of each message in its role; an answer
      goes with the id of its call, and requested calls do not go at all. */
  ghost predicate Sends(env: Env, messages: seq<Message>, sent: seq<SentMessage>) {
    var k := if env.systemPrompt != "" then 1 else 0;
    && |sent| == |messages| > k
    && (k == 1 ==> sent[0] == Plain("system", env.systemPrompt))
    && sent[k] == Plain("user", env.userMessage)
    && forall i :: k < i < |messages| ==>
         && (messages[i].Assistant? ==> sent[i] == Plain("assistant", messages[i].content))
         && (messages[i].Tool? ==> sent[i] == ToolAnswer(messages[i].toolCallId, messages[i].content))
  }

  lemma SendsAll(env: Env, messages: seq<Message>)
    requires Prefix(env) <= messages
    ensures Sends(env, messages, Map(DictToMessage, messages))
  {
    var k := if env.systemPrompt != "" then 1 else 0;
    assert forall i :: 0 <= i <= k ==> messages[i] == Prefix(env)[i];
  }

  /** The conversation so far. */
  ghost predicate ConversationKept(env: Env, s: State) {
    && Conversation(env, s.messages, Unanswered(s))
    && (s.result.None? ==> !EndsInTool(s))
  }

  /** The conversation at every provider call so far. */
  ghost predicate CallsKept(env: Env, s: State) {
    forall t :: 0 <= t < |s.trace| && s.trace[t].Called? ==>
      && Conversation(env, s.trace[t].messages, []) && s.trace[t].messages <= s.messages
      && Sends(env, s.trace[t].messages, s.trace[t].sent)
  }

  lemma ConversationAnswers(env: Env, s: State, m: Move, u: State)
    requires ConversationKept(env, s) && s.result.None? && Moves(env, s, m, u) && m.ToolAnswered?
    ensures ConversationKept(env, u)
  {
    assert Unanswered(s) == s.pending;
    ConversationAnswer(env, s.messages, s.pending, m.content);
    assert Unanswered(u) == s.pending[1..];
  }

  lemma ConversationOpens(env: Env, s: State, m: Move, u: State)
    requires ConversationKept(env, s) && s.result.None? && Moves(env, s, m, u) && m.NewRound?
    ensures ConversationKept(env, u)
  {
    assert Unanswered(s) == s.pending;
    ConversationOpen(env, s.messages, m.r.content, m.r.toolCalls);
    assert Unanswered(u) == m.r.toolCalls;
  }

  lemma ConversationMove(env: Env, s: State, m: Move, u: State)
    requires ConversationKept(env, s) && s.result.None? && Moves(env, s, m, u)
    ensures ConversationKept(env, u)
  {
    if m.ToolAnswered? {
      ConversationAnswers(env, s, m, u);
    } else if m.NewRound? {
      ConversationOpens(env, s, m, u);
    } else {
      assert u.messages == s.messages && Unanswered(u) == Unanswered(s);
    }
  }

  lemma CallsGrow(env: Env, s: State, events: seq<Event>, u: State)
    requires CallsKept(env, s) && u.trace == s.trace + events && s.messages <= u.messages
    requires forall e :: e in events && e.Called? ==> e == CallAt(s) && Conversation(env, s.messages, [])
    ensures CallsKept(env, u)
  {
    forall t | 0 <= t < |u.trace| && u.trace[t].Called?
      ensures Conversation(env, u.trace[t].messages, []) && u.trace[t].messages <= u.messages
      ensures Sends(env, u.trace[t].messages, u.trace[t].sent)
    {
      if Prefix(env) <= s.messages { SendsAll(env, s.messages); }
      assert if t < |s.trace| then u.trace[t] == s.trace[t] else u.trace[t] in events;
    }
  }

  lemma CallsMove(env: Env, s: State, m: Move, u: State)
    requires CallsKept(env, s) && s.result.None? && Moves(env, s, m, u)
    requires ConversationKept(env, s)
    ensures CallsKept(env, u)
  {
    assert Unanswered(s) == s.pending;
    CallsGrow(env, s, EventsOf(env, s, m), u);
  }

  /** Every provider call of every run is about the initial messages followed by
      complete rounds, and is sent their contents in their roles.  When the run ends,
      only the calls it did not get to, and
      one whose execution raised, are left without an answer. */
  lemma ConversationWellFormed(env: Env, recording: Option<Recording>)
    ensures var s := Run(env, recording);
            && (forall t :: 0 <= t < |s.trace| && s.trace[t].Called? ==>
                  && Conversation(env, s.trace[t].messages, []) && s.trace[t].messages <= s.messages
                  && Sends(env, s.trace[t].messages, s.trace[t].sent))
            && Conversation(env, s.messages, Unanswered(s))
  {
    var inv := (x: State) => ConversationKept(env, x) && CallsKept(env, x);
    forall x: State | inv(x) && x.result.None? ensures inv(Step(env, x)) {
      StepMoves(env, x);
      ConversationMove(env, x, MoveOf(env, x), Step(env, x));
      CallsMove(env, x, MoveOf(env, x), Step(env, x));
    }
    assert Initial(env, recording).messages[|Prefix(env)|..] == [];
    Invariant(env, inv, Initial(env, recording));
  }

  // ----- Requests and executions -----

  function Requests(m: Message): seq<ToolCall> {
    if m.Assistant? then m.toolCalls else []
  }

  function Executions(e: Event): seq<ToolCall> {
    if e.Ran? then [e.call] else []
  }

  predicate IsCall(e: Event) {
    e.Called?
  }

  /** All calls the provider requested, in order. */
  function Requested(messages: seq<Message>): seq<ToolCall> {
    FlatMap(Requests, messages)
  }

  /** All calls the loop executed, in order. */
  function Executed(trace: seq<Event>): seq<ToolCall> {
    FlatMap(Executions, trace)
  }

  function ProviderCalls(trace: seq<Event>): nat {
    |Filter(IsCall, trace)|
  }

  lemma EventFolds(env: Env, s: State, m: Move)
    requires IsToolMove(m) ==> s.pending != []
    ensures Executed(EventsOf(env, s, m)) == if IsToolMove(m) then [s.pending[0]] else []
    ensures ProviderCalls(EventsOf(env, s, m)) == if IsCounted(m) || m.ProviderFailed? then 1 else 0
  {
    var events := EventsOf(env, s, m);
    if events != [] {
      FoldSingleton(Executions, (e: Event) => 0, events[0]);
      assert events[..|events| - 1] == if |events| == 1 then [] else [events[0]];
      assert [events[0]][..0] == [] && |Filter(IsCall, [events[0]])| == if IsCall(events[0]) then 1 else 0;
    }
  }

  lemma AddedFolds(s: State, m: Move)
    requires IsToolMove(m) ==> s.pending != []
    ensures Requested(AddedBy(s, m)) == if m.NewRound? then m.r.toolCalls else []
  {
    var added := AddedBy(s, m);
    if added != [] {
      FoldSingleton(Requests, (x: Message) => 0, added[0]);
      assert added == [added[0]];
    }
  }

  /** The folds over one move's additions. */
  lemma MoveFolds(env: Env, s: State, m: Move, u: State)
    requires Moves(env, s, m, u)
    ensures Executed(u.trace) == Executed(s.trace) + if IsToolMove(m) then [s.pending[0]] else []
    ensures ProviderCalls(u.trace) == ProviderCalls(s.trace) + if IsCounted(m) || m.ProviderFailed? then 1 else 0
    ensures Requested(u.messages) == Requested(s.messages) + if m.NewRound? then m.r.toolCalls else []
  {
    FlatMapConcat(Executions, s.trace, EventsOf(env, s, m));
    FilterConcat(IsCall, s.trace, EventsOf(env, s, m));
    FlatMapConcat(Requests, s.messages, AddedBy(s, m));
    EventFolds(env, s, m);
    AddedFolds(s, m);
  }

  ghost predicate ExecutionKept(s: State) {
    && Requested(s.messages) == Executed(s.trace) + s.pending
    && s.steps == s.toolCalls == |Executed(s.trace)|
    && (s.result.Some? ==>
          var r := s.result.value;
          && r.totalSteps == s.steps && r.totalToolCalls == s.toolCalls && r.totalLlmCalls == s.llmCalls
          && r.totalTokensInput == s.tokensInput && r.totalTokensOutput == s.tokensOutput
          && (r.success <==> r.status == T.Completed)
          && (r.finalResponse != "" ==> r.success)
          && (r.status in {T.Completed, T.MaxStepsReached} ==> s.pending == []))
  }

  lemma Regroup(executed: seq<ToolCall>, pending: seq<ToolCall>)
    requires pending != []
    ensures executed + pending == executed + [pending[0]] + pending[1..]
  {
  }

  lemma ExecutionMove(env: Env, s: State, m: Move, u: State)
    requires ExecutionKept(s) && s.result.None? && Moves(env, s, m, u)
    ensures ExecutionKept(u)
  {
    MoveFolds(env, s, m, u);
    if IsToolMove(m) {
      Regroup(Executed(s.trace), s.pending);
    } else if m.NewRound? {
      assert Executed(s.trace) + [] == Executed(s.trace) && Requested(s.messages) == Executed(s.trace);
    }
  }

  /** The largest number of calls in one response. */
  function LargestBatch(messages: seq<Message>): nat {
    if messages == [] then 0
    else Max(LargestBatch(messages[..|messages| - 1]), |Requests(messages[|messages| - 1])|)
  }

  lemma NothingRequested(env: Env)
    ensures Requested(Prefix(env)) == [] && LargestBatch(Prefix(env)) == 0
  {
    var p := Prefix(env);
    var first := [System(env.systemPrompt)];
    FoldSingleton(Requests, (m: Message) => 0, first[0]);
    assert first[..|first| - 1] == [] && LargestBatch(first) == 0;
    assert p[..|p| - 1] == if |p| == 1 then [] else first;
  }

  /** The executed calls are a prefix of the requested ones, in the requested
      order, and all of them when the run completed or spent its budget. */
  lemma ExecutedIsPrefixOfRequested(env: Env, recording: Option<Recording>)
    ensures var s := Run(env, recording);
            && s.result.Some?
            && Executed(s.trace) <= Requested(s.messages)
            && Requested(s.messages) == Executed(s.trace) + s.pending
            && (s.result.value.status in {T.Completed, T.MaxStepsReached} ==>
                  Executed(s.trace) == Requested(s.messages))
            && |Executed(s.trace)| == s.result.value.totalSteps == s.result.value.totalToolCalls
  {
    var inv := (x: State) => ExecutionKept(x);
    forall x: State | inv(x) && x.result.None? ensures inv(Step(env, x)) {
      StepMoves(env, x);
      ExecutionMove(env, x, MoveOf(env, x), Step(env, x));
    }
    NothingRequested(env);
    Invariant(env, inv, Initial(env, recording));
  }

  // ----- The budget -----

  ghost predicate BudgetKept(env: Env, s: State) {
    && ProviderCalls(s.trace) <= Max(0, env.maxSteps)
    && s.steps + |s.pending| <= Max(0, env.maxSteps - 1 + LargestBatch(s.messages))
    && (s.result.None? ==> s.llmCalls == ProviderCalls(s.trace) <= s.steps + |s.pending|)
    && s.llmCalls <= ProviderCalls(s.trace) <= s.llmCalls + 1
    && (env.maxSteps <= 0 ==> s.trace == [])
    && (s.result.Some? ==> s.result.value.totalSteps == s.steps && s.result.value.totalLlmCalls == s.llmCalls)
    && (s.result.Some? && env.maxSteps <= 0 ==> s.result.value.status == T.MaxStepsReached)
    && (env.maxSteps <= 0 ==> s.pending == [])
  }

  lemma BudgetMove(env: Env, s: State, m: Move, u: State)
    requires BudgetKept(env, s) && s.result.None? && Moves(env, s, m, u)
    ensures BudgetKept(env, u)
  {
    MoveFolds(env, s, m, u);
    if AddedBy(s, m) == [] {
      assert u.messages == s.messages;
    } else {
      assert u.messages[..|u.messages| - 1] == s.messages && u.messages[|u.messages| - 1] == AddedBy(s, m)[0];
    }
  }

  /** The budget bounds the provider calls exactly, but the tool executions only
      up to the last response: it may overshoot by its own calls, less one.  A
      budget of nothing does nothing. */
  lemma BudgetBounds(env: Env, recording: Option<Recording>)
    ensures var s := Run(env, recording);
            && s.result.Some?
            && var r := s.result.value;
               && ProviderCalls(s.trace) <= Max(0, env.maxSteps)
               && r.totalLlmCalls <= ProviderCalls(s.trace) <= r.totalLlmCalls + 1
               && (env.maxSteps >= 1 ==> r.totalSteps <= env.maxSteps - 1 + LargestBatch(s.messages))
               && (env.maxSteps <= 0 ==> s.trace == [] && r.status == T.MaxStepsReached && r.totalSteps == 0)
  {
    var inv := (x: State) => BudgetKept(env, x);
    forall x: State | inv(x) && x.result.None? ensures inv(Step(env, x)) {
      StepMoves(env, x);
      BudgetMove(env, x, MoveOf(env, x), Step(env, x));
    }
    NothingRequested(env);
    Invariant(env, inv, Initial(env, recording));
    ExecutedIsPrefixOfRequested(env, recording);
  }

  // ----- What the provider sees -----

  function WithoutCalls(m: Message): Message {
    if m.Assistant? then m.(toolCalls := []) else m
  }

  /** Two messages reach the provider as the same one exactly when they differ in
      their calls at most. */
  lemma CallsAreNotSent(a: Message, b: Message)
    ensures DictToMessage(a) == DictToMessage(b) <==> WithoutCalls(a) == WithoutCalls(b)
  {
    assert |"system"| == 6 && |"user"| == 4 && |"assistant"| == 9;
  }

  /** Two conversations reach the provider as the same list exactly when they differ
      in the requested calls at most: which calls a round answers is never sent. */
  lemma ConversationsSentAlike(a: seq<Message>, b: seq<Message>)
    ensures Map(DictToMessage, a) == Map(DictToMessage, b) <==> Map(WithoutCalls, a) == Map(WithoutCalls, b)
  {
    if |a| == |b| {
      forall i | 0 <= i < |a|
        ensures DictToMessage(a[i]) == DictToMessage(b[i]) <==> WithoutCalls(a[i]) == WithoutCalls(b[i])
      {
        CallsAreNotSent(a[i], b[i]);
      }
      if Map(DictToMessage, a) == Map(DictToMessage, b) {
        forall i | 0 <= i < |a| ensures WithoutCalls(a[i]) == WithoutCalls(b[i]) {
          assert Map(DictToMessage, a)[i] == Map(DictToMessage, b)[i];
        }
      }
      if Map(WithoutCalls, a) == Map(WithoutCalls, b) {
        forall i | 0 <= i < |a| ensures DictToMessage(a[i]) == DictToMessage(b[i]) {
          assert Map(WithoutCalls, a)[i] == Map(WithoutCalls, b)[i];
        }
      }
    }
  }

  // ----- Cancellation -----

  /** Each event's place in the loop: a check reads the flag and ends the run if
      it is set; a provider call follows a clear check; a tool execution follows
      a clear check or the provider call that requested it. */
  ghost predicate EventInPlace(env: Env, s: State, t: nat)
    requires t < |s.trace|
  {
    match s.trace[t]
    case Checked(isSet) =>
      && isSet == env.cancelled(t)
      && (isSet ==> t == |s.trace| - 1 && s.result.Some? && s.result.value.status == T.Cancelled)
    case Called(_, _) => t > 0 && s.trace[t - 1] == Checked(false)
    case Ran(_) => t > 0 && (s.trace[t - 1] == Checked(false) || s.trace[t - 1].Called?)
  }

  predicate EndsWith(s: State, e: Event) {
    |s.trace| > 0 && s.trace[|s.trace| - 1] == e
  }

  ghost predicate TraceKept(env: Env, s: State) {
    && (forall t: nat :: t < |s.trace| ==> EventInPlace(env, s, t))
    && match s.result
       case None =>
         if s.pending == [] then s.trace == [] || EndsWith(s, Checked(false))
         else |s.trace| > 0 && (EndsWith(s, Checked(false)) || s.trace[|s.trace| - 1].Called?)
       case Some(r) =>
         && r.status in {T.Completed, T.Cancelled, T.FailedStatus, T.MaxStepsReached}
         && (r.status == T.Cancelled <==> EndsWith(s, Checked(true)))
         && (r.status == T.MaxStepsReached ==> s.trace == [] || EndsWith(s, Checked(false)))
  }

  lemma TraceMove(env: Env, s: State, m: Move, u: State)
    requires TraceKept(env, s) && s.result.None? && Moves(env, s, m, u)
    ensures TraceKept(env, u)
  {
    forall t: nat | t < |u.trace| ensures EventInPlace(env, u, t) {
      if t < |s.trace| { assert EventInPlace(env, s, t); }
    }
  }

  lemma TraceOfRun(env: Env, recording: Option<Recording>)
    ensures Run(env, recording).result.Some? && TraceKept(env, Run(env, recording))
  {
    var inv := (x: State) => TraceKept(env, x);
    forall x: State | inv(x) && x.result.None? ensures inv(Step(env, x)) {
      StepMoves(env, x);
      TraceMove(env, x, MoveOf(env, x), Step(env, x));
    }
    Invariant(env, inv, Initial(env, recording));
  }

  /** Once the cancel flag is set (from instant `t0` on), only an action whose
      check had already passed can still happen: no provider call starts after
      `t0`, at most one tool execution does, and the run is over within three
      events.  It ends cancelled unless an answer or an error ends it first, or
      it was already over. */
  lemma CancellationStops(env: Env, recording: Option<Recording>, t0: nat)
    requires forall t: nat :: t >= t0 ==> env.cancelled(t)
    ensures var s := Run(env, recording);
            && s.result.Some?
            && |s.trace| <= t0 + 3
            && (forall t: nat :: t0 < t < |s.trace| ==> !s.trace[t].Called?)
            && (forall t: nat, u: nat :: t0 <= t < u < |s.trace| ==> !(s.trace[t].Ran? && s.trace[u].Ran?))
            && (t0 < |s.trace| ==> s.result.value.status in {T.Cancelled, T.Completed, T.FailedStatus})
  {
    var s := Run(env, recording);
    TraceOfRun(env, recording);
    forall t: nat | t0 <= t < |s.trace| && s.trace[t].Checked?
      ensures s.trace[t] == Checked(true) && t == |s.trace| - 1
    {
      assert EventInPlace(env, s, t);
    }
    forall t: nat | t0 < t < |s.trace| ensures !s.trace[t].Called? {
      assert EventInPlace(env, s, t);
      assert s.trace[t - 1] != Checked(false);
    }
    forall t: nat | t0 + 1 < t < |s.trace| ensures s.trace[t].Checked? {
      assert EventInPlace(env, s, t);
      assert s.trace[t - 1] != Checked(false) && !s.trace[t - 1].Called?;
    }
    if t0 + 2 < |s.trace| { assert s.trace[t0 + 2].Checked?; }
    forall t: nat, u: nat | t0 <= t < u < |s.trace| && s.trace[u].Ran? ensures !s.trace[t].Ran? {
      assert EventInPlace(env, s, u);
    }
  }

  /** A run is cancelled exactly when its last event is a check that found the
      flag set, so a run whose flag is never set is never cancelled. */
  lemma CancelledExactly(env: Env, recording: Option<Recording>)
    ensures var s := Run(env, recording);
            && s.result.Some?
            && (s.result.value.status == T.Cancelled <==>
                  |s.trace| > 0 && s.trace[|s.trace| - 1].Checked? && env.cancelled(|s.trace| - 1))
  {
    var s := Run(env, recording);
    TraceOfRun(env, recording);
    if |s.trace| > 0 { assert EventInPlace(env, s, |s.trace| - 1); }
  }
}
