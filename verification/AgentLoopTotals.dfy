/** The loop's totals are those of the provider's responses. */
module AgentLoopTotals {
  import opened Wrappers
  import opened Collections
  import T = Trajectory
  import opened TrajectoryRecorder
  import opened AgentLoop
  import opened AgentLoopProperties

  /** The response to a provider call that `n` others preceded. */
  function ResponseTo(env: Env, n: nat, e: Event): seq<Response> {
    if e.Called? && env.provider(n, e.sent).Responded? then [env.provider(n, e.sent).response] else []
  }

  /** The responses to the provider calls of a trace, in order. */
  function Responses(env: Env, trace: seq<Event>): seq<Response> {
    if trace == [] then []
    else
      var n := |trace| - 1;
      Responses(env, trace[..n]) + ResponseTo(env, ProviderCalls(trace[..n]), trace[n])
  }

  function InputOf(r: Response): int { r.inputTokens }
  function OutputOf(r: Response): int { r.outputTokens }
  function CostOf(r: Response): real { r.costUsd }
  function CallsIn(r: Response): seq<ToolCall> { r.toolCalls }

  lemma TraceSnoc(env: Env, trace: seq<Event>, e: Event)
    ensures ProviderCalls(trace + [e]) == ProviderCalls(trace) + if e.Called? then 1 else 0
    ensures Responses(env, trace + [e]) == Responses(env, trace) + ResponseTo(env, ProviderCalls(trace), e)
  {
    assert (trace + [e])[..|trace|] == trace;
  }

  /** The response a move receives. */
  function Received(m: Move): seq<Response> {
    if IsCounted(m) then [m.r] else []
  }

  /** The move tells what the provider answered, if it was called. */
  ghost predicate Truthful(env: Env, s: State, m: Move) {
    && (IsCounted(m) ==> ReplyAt(env, s) == Responded(m.r))
    && (m.ProviderFailed? ==> ReplyAt(env, s).ProviderThrew?)
  }

  lemma MoveIsTruthful(env: Env, s: State)
    ensures Truthful(env, s, MoveOf(env, s))
  {
  }

  /** Events other than provider calls bring no response. */
  lemma {:induction false} NoResponses(env: Env, trace: seq<Event>, events: seq<Event>)
    requires forall e :: e in events ==> !e.Called?
    ensures Responses(env, trace + events) == Responses(env, trace)
    ensures ProviderCalls(trace + events) == ProviderCalls(trace)
  {
    if events == [] {
      assert trace + events == trace;
    } else {
      var n := |events| - 1;
      NoResponses(env, trace, events[..n]);
      TraceSnoc(env, trace + events[..n], events[n]);
      assert trace + events == trace + events[..n] + [events[n]];
    }
  }

  lemma CallResponse(env: Env, trace: seq<Event>, call: Event)
    requires call.Called?
    ensures var after := trace + [Checked(false), call];
            && Responses(env, after) == Responses(env, trace) + ResponseTo(env, ProviderCalls(trace), call)
            && ProviderCalls(after) == ProviderCalls(trace) + 1
  {
    NoResponses(env, trace, [Checked(false)]);
    TraceSnoc(env, trace + [Checked(false)], call);
    assert trace + [Checked(false), call] == trace + [Checked(false)] + [call];
  }

  lemma NothingMore(rs: seq<Response>)
    ensures rs + [] == rs
  {
  }

  lemma ResponsesMove(env: Env, s: State, m: Move, u: State)
    requires s.result.None? && Moves(env, s, m, u) && Truthful(env, s, m) && s.llmCalls == ProviderCalls(s.trace)
    ensures Responses(env, u.trace) == Responses(env, s.trace) + Received(m)
    ensures ProviderCalls(u.trace) == ProviderCalls(s.trace) + if IsCounted(m) || m.ProviderFailed? then 1 else 0
  {
    if IsCounted(m) || m.ProviderFailed? {
      var call := CallAt(s);
      assert EventsOf(env, s, m) == [Checked(false), call];
      CallResponse(env, s.trace, call);
      assert ResponseTo(env, s.llmCalls, call) == Received(m);
    } else {
      NoResponses(env, s.trace, EventsOf(env, s, m));
      NothingMore(Responses(env, s.trace));
    }
  }

  /** The counters are the totals of the responses. */
  ghost predicate SumsKept(env: Env, s: State) {
    var rs := Responses(env, s.trace);
    && s.llmCalls == |rs|
    && s.tokensInput == Sum(InputOf, rs) && s.tokensOutput == Sum(OutputOf, rs) && s.cost == SumReal(CostOf, rs)
    && match s.result
       case None => s.llmCalls == ProviderCalls(s.trace)
       case Some(r) =>
         && r.totalLlmCalls == s.llmCalls && r.totalTokensInput == s.tokensInput
         && r.totalTokensOutput == s.tokensOutput && r.totalCostUsd == s.cost
  }

  /** The conversation holds the calls of these responses. */
  ghost predicate RequestsKept(env: Env, s: State, rs: seq<Response>) {
    && Requested(s.messages) <= FlatMap(CallsIn, rs)
    && (forall i :: 0 <= i < |rs| && rs[i].toolCalls == [] ==> i == |rs| - 1 && s.result.Some?)
    && match s.result
       case None => Requested(s.messages) == FlatMap(CallsIn, rs)
       case Some(r) =>
         && (r.status != T.FailedStatus ==> Requested(s.messages) == FlatMap(CallsIn, rs))
         && (r.status == T.Completed ==>
               rs != [] && rs[|rs| - 1].toolCalls == [] && rs[|rs| - 1].content == r.finalResponse)
  }

  ghost predicate TotalsKept(env: Env, s: State) {
    SumsKept(env, s) && RequestsKept(env, s, Responses(env, s.trace))
  }

  lemma SumsSnoc(rs: seq<Response>, r: Response)
    ensures Sum(InputOf, rs + [r]) == Sum(InputOf, rs) + r.inputTokens
    ensures Sum(OutputOf, rs + [r]) == Sum(OutputOf, rs) + r.outputTokens
    ensures SumReal(CostOf, rs + [r]) == SumReal(CostOf, rs) + r.costUsd
    ensures FlatMap(CallsIn, rs + [r]) == FlatMap(CallsIn, rs) + r.toolCalls
  {
    assert (rs + [r])[..|rs|] == rs;
  }

  lemma SumsMove(env: Env, s: State, m: Move, u: State)
    requires SumsKept(env, s) && s.result.None? && Moves(env, s, m, u) && Truthful(env, s, m)
    ensures SumsKept(env, u)
  {
    ResponsesMove(env, s, m, u);
    if IsCounted(m) {
      SumsSnoc(Responses(env, s.trace), m.r);
    } else {
      assert Responses(env, u.trace) == Responses(env, s.trace);
    }
  }

  lemma RequestsMove(env: Env, s: State, m: Move, u: State, rs: seq<Response>)
    requires RequestsKept(env, s, rs) && s.result.None? && Moves(env, s, m, u)
    ensures RequestsKept(env, u, rs + Received(m))
  {
    MoveFolds(env, s, m, u);
    if IsCounted(m) {
      SumsSnoc(rs, m.r);
    } else {
      assert rs + Received(m) == rs;
    }
  }

  lemma TotalsStep(env: Env, s: State)
    requires TotalsKept(env, s) && s.result.None?
    ensures TotalsKept(env, Step(env, s))
  {
    StepMoves(env, s);
    MoveIsTruthful(env, s);
    ResponsesMove(env, s, MoveOf(env, s), Step(env, s));
    SumsMove(env, s, MoveOf(env, s), Step(env, s));
    RequestsMove(env, s, MoveOf(env, s), Step(env, s), Responses(env, s.trace));
  }

  lemma TotalsOfRun(env: Env, recording: Option<Recording>)
    ensures Run(env, recording).result.Some? && TotalsKept(env, Run(env, recording))
  {
    var inv := (x: State) => TotalsKept(env, x);
    forall x: State | inv(x) && x.result.None? ensures inv(Step(env, x)) {
      TotalsStep(env, x);
    }
    NothingRequested(env);
    Invariant(env, inv, Initial(env, recording));
  }

  /** In every run the totals of the result are the sums over the provider's
      responses, the requested calls are theirs, in order, and all but the last
      response request some.  A completed run returns the content of the last one;
      only a failed run can lack the calls of a response. */
  lemma TotalsAreSums(env: Env, recording: Option<Recording>)
    ensures var s := Run(env, recording);
            && s.result.Some?
            && var r, rs := s.result.value, Responses(env, s.trace);
               && r.totalLlmCalls == |rs| && r.totalTokensInput == Sum(InputOf, rs)
               && r.totalTokensOutput == Sum(OutputOf, rs) && r.totalCostUsd == SumReal(CostOf, rs)
               && Requested(s.messages) <= FlatMap(CallsIn, rs)
               && (r.status != T.FailedStatus ==> Requested(s.messages) == FlatMap(CallsIn, rs))
               && (forall i :: 0 <= i < |rs| - 1 ==> rs[i].toolCalls != [])
               && (r.status == T.Completed ==>
                     rs != [] && rs[|rs| - 1].toolCalls == [] && rs[|rs| - 1].content == r.finalResponse)
  {
    TotalsOfRun(env, recording);
  }
}
