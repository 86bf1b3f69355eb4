/** Creating and retrying evaluation runs: idempotency keys, workflow ids and
    retry chains (backend/app/api/evaluation_run.py, and the create and retry
    handlers in backend/app/evaluation/application/run_handlers.py).  A rejected
    request is rolled back.  Run ids are fresh UUID texts passed in; `digest` is
    the truncated hash of an idempotency key. */
module EvaluationRuns {
  import opened Wrappers

  datatype Status =
    | Created | Queued | Starting | Running | Paused | Cancelling | Completed | Failed | TimedOut | Cancelled

  /** What a retry carries over: everything a run was asked to do. */
  datatype Configuration = Configuration(
    evaluationName: string, evaluationId: Option<string>, provider: string, model: string, systemPrompt: string,
    promptTemplate: string, temperature: real, maxTokens: Option<int>, metrics: seq<string>,
    datasetItems: seq<map<string, string>>, projectId: string, createdBy: string, tags: seq<string>)

  datatype Run = Run(workflowId: Option<string>, configuration: Configuration, status: Status)

  /** The lifecycle of a run goes on between requests; `Settle` stands for it. */
  datatype Op =
    | Create(id: string, key: string, bodyWorkflowId: Option<string>, configuration: Configuration,
             ownsEvaluation: bool, ownsExisting: bool, workflowStarts: bool)
    | Retry(source: string, id: string, ownsSource: bool, workflowStarts: bool)
    | Settle(source: string, status: Status)

  datatype Outcome = NewRun(id: string) | Existing(id: string) | Rejected(reason: string) | Settled

  // ----- Workflow ids -----

  predicate IsUuid(id: string) {
    |id| == 36 && forall i :: 0 <= i < 36 ==> '0' <= id[i] <= '9' || 'a' <= id[i] <= 'f' || id[i] == '-'
  }

  function IdempotentWorkflowId(digest: string -> string, key: string): string {
    "evaluation-run-idem-" + digest(key)
  }

  function OwnWorkflowId(id: string): string {
    "evaluation-run-" + id
  }

  function WorkflowIdOf(digest: string -> string, key: string, id: string): string {
    if key != "" then IdempotentWorkflowId(digest, key) else OwnWorkflowId(id)
  }

  /** A run's own workflow id is never that of an idempotency key: no UUID text
      begins with `idem-`.  Own ids differ with the run, shared ones with the
      digest. */
  lemma WorkflowIdsApart(digest: string -> string, key: string, other: string, id: string, otherId: string)
    requires IsUuid(id) && IsUuid(otherId)
    ensures OwnWorkflowId(id) != IdempotentWorkflowId(digest, key)
    ensures OwnWorkflowId(id) == OwnWorkflowId(otherId) <==> id == otherId
    ensures IdempotentWorkflowId(digest, key) == IdempotentWorkflowId(digest, other) <==> digest(key) == digest(other)
  {
    var own, shared := OwnWorkflowId(id), IdempotentWorkflowId(digest, key);
    assert own[15..] == id && OwnWorkflowId(otherId)[15..] == otherId;
    assert shared[20..] == digest(key) && IdempotentWorkflowId(digest, other)[20..] == digest(other);
    assert own[15] == id[0] && shared[15] == 'i';
  }

  // ----- Requests as a state machine -----

  /** A run as it was created, by which request. */
  datatype Issue = Issue(id: string, key: string, parent: Option<string>)

  datatype State = State(runs: map<string, Run>, log: seq<Issue>)

  const EMPTY := State(map[], [])

  function Assigned(runs: map<string, Run>, workflowId: string): set<string> {
    set id | id in runs && runs[id].workflowId == Some(workflowId)
  }

  /** `find_by_workflow_id` */
  ghost function FindByWorkflowId(runs: map<string, Run>, workflowId: string): (r: Option<string>)
    ensures r.Some? ==> r.value in Assigned(runs, workflowId)
    ensures r.None? ==> Assigned(runs, workflowId) == {}
  {
    if Assigned(runs, workflowId) == {} then None
    else
      var id :| id in Assigned(runs, workflowId);
      Some(id)
  }

  /** The existing run a create request asks for, if it has a key. */
  ghost function Repeated(digest: string -> string, s: State, key: string): Option<string> {
    if key == "" then None else FindByWorkflowId(s.runs, IdempotentWorkflowId(digest, key))
  }

  ghost function CreateOutcome(digest: string -> string, s: State, op: Op): Outcome
    requires op.Create?
  {
    var existing := Repeated(digest, s, op.key);
    if !op.ownsEvaluation then Rejected("evaluation not found")
    else if existing.Some? then
      if op.ownsExisting then Existing(existing.value) else Rejected("Access denied")
    else if op.configuration.provider == "" then Rejected("Provider is required")
    else if op.configuration.model == "" then Rejected("Model is required")
    else if !op.workflowStarts then Rejected("workflow not started")
    else NewRun(op.id)
  }

  predicate Retryable(status: Status) {
    status.Failed? || status.TimedOut?
  }

  function RetryOutcome(s: State, op: Op): Outcome
    requires op.Retry?
  {
    if op.source !in s.runs then Rejected("Evaluation run not found")
    else if !op.ownsSource then Rejected("Access denied")
    else if !Retryable(s.runs[op.source].status) then Rejected("Only failed or timed-out runs can be retried")
    else if s.runs[op.source].configuration.datasetItems == []
    then Rejected("original dataset inputs were not persisted")
    else if !op.workflowStarts then Rejected("workflow not started")
    else NewRun(op.id)
  }

  ghost function OutcomeOf(digest: string -> string, s: State, op: Op): Outcome {
    match op
    case Create(_, _, _, _, _, _, _) => CreateOutcome(digest, s, op)
    case Retry(_, _, _, _) => RetryOutcome(s, op)
    case Settle(source, _) => if source in s.runs then Settled else Rejected("Evaluation run not found")
  }

  function WithRun(s: State, issue: Issue, run: Run): State {
    State(s.runs[issue.id := run], s.log + [issue])
  }

  /** Only a new run, or the lifecycle of an old one, changes the store. */
  ghost function Step(digest: string -> string, s: State, op: Op): State {
    match OutcomeOf(digest, s, op)
    case Rejected(_) => s
    case Existing(_) => s
    case Settled => s.(runs := s.runs[op.source := s.runs[op.source].(status := op.status)])
    case NewRun(_) =>
      if op.Create? then
        WithRun(s, Issue(op.id, op.key, None),
                Run(Some(WorkflowIdOf(digest, op.key, op.id)), op.configuration, Queued))
      else
        WithRun(s, Issue(op.id, "", Some(op.source)),
                Run(Some(OwnWorkflowId(op.id)), s.runs[op.source].configuration, Queued))
  }

  ghost predicate Fresh(s: State, op: Op) {
    op.Settle? || (IsUuid(op.id) && forall i :: 0 <= i < |s.log| ==> s.log[i].id != op.id)
  }

  /** What a create request comes to: the guards in their order, and the new run with
      the requested configuration, queued under the workflow id of its key or its own. */
  lemma CreateExactly(digest: string -> string, s: State, op: Op)
    requires op.Create?
    ensures var outcome, t := OutcomeOf(digest, s, op), Step(digest, s, op);
            var repeated := op.key != "" && exists id ::
              id in s.runs && s.runs[id].workflowId == Some("evaluation-run-idem-" + digest(op.key));
            && (outcome.Existing? <==> op.ownsEvaluation && repeated && op.ownsExisting)
            && (outcome.Existing? ==>
                  && outcome.id in s.runs
                  && s.runs[outcome.id].workflowId == Some("evaluation-run-idem-" + digest(op.key)))
            && (outcome == NewRun(op.id) <==>
                  && op.ownsEvaluation && !repeated && op.workflowStarts
                  && op.configuration.provider != "" && op.configuration.model != "")
            && (outcome.NewRun? ==>
                  t.runs == s.runs[op.id := Run(
                    Some(if op.key == "" then "evaluation-run-" + op.id else "evaluation-run-idem-" + digest(op.key)),
                    op.configuration, Queued)])
            && (!outcome.NewRun? ==> t == s && (outcome.Existing? || outcome.Rejected?))
            && (!op.ownsEvaluation ==> outcome == Rejected("evaluation not found"))
            && (op.ownsEvaluation && repeated && !op.ownsExisting ==> outcome == Rejected("Access denied"))
  {
    var shared := "evaluation-run-idem-" + digest(op.key);
    assert forall id :: id in Assigned(s.runs, shared) <==> id in s.runs && s.runs[id].workflowId == Some(shared);
  }

  /** A retry makes a new run exactly when the source is stored, owned, failed or timed
      out and has a dataset, and its workflow starts; the new run has the source's
      configuration and is queued under a workflow id of its own. */
  lemma RetryExactly(digest: string -> string, s: State, op: Op)
    requires op.Retry?
    ensures var outcome, t := OutcomeOf(digest, s, op), Step(digest, s, op);
            && (outcome == NewRun(op.id) <==>
                  && op.source in s.runs && op.ownsSource && op.workflowStarts
                  && (s.runs[op.source].status == Failed || s.runs[op.source].status == TimedOut)
                  && s.runs[op.source].configuration.datasetItems != [])
            && (outcome.NewRun? ==>
                  t.runs == s.runs[op.id := Run(Some("evaluation-run-" + op.id), s.runs[op.source].configuration,
                                                Queued)])
            && (!outcome.NewRun? ==> outcome.Rejected? && t == s)
            && (op.source !in s.runs ==> outcome == Rejected("Evaluation run not found"))
            && (op.source in s.runs && !op.ownsSource ==> outcome == Rejected("Access denied"))
  {
  }

  // ----- What every reachable store keeps -----

  ghost predicate LoggedAt(s: State, i: int, id: string) {
    0 <= i < |s.log| && s.log[i].id == id
  }

  /** A logged run is stored under its workflow id. */
  ghost predicate RunKept(digest: string -> string, s: State, i: int)
    requires 0 <= i < |s.log|
  {
    var issue := s.log[i];
    && IsUuid(issue.id) && issue.id in s.runs
    && s.runs[issue.id].workflowId == Some(WorkflowIdOf(digest, issue.key, issue.id))
  }

  /** A retry has its source's configuration, and that has a dataset. */
  ghost predicate ParentKept(s: State, i: int)
    requires 0 <= i < |s.log|
  {
    s.log[i].parent.Some? ==>
      && s.log[i].key == "" && s.log[i].id in s.runs && s.log[i].parent.value in s.runs
      && (exists j :: j < i && LoggedAt(s, j, s.log[i].parent.value))
      && s.runs[s.log[i].id].configuration == s.runs[s.log[i].parent.value].configuration
      && s.runs[s.log[i].id].configuration.datasetItems != []
  }

  ghost predicate DistinctRuns(s: State) {
    && (forall i, j :: 0 <= i < j < |s.log| ==> s.log[i].id != s.log[j].id)
    && forall a, b :: a in s.runs && b in s.runs && a != b ==> s.runs[a].workflowId != s.runs[b].workflowId
  }

  ghost predicate Kept(digest: string -> string, s: State) {
    && DistinctRuns(s)
    && (forall id :: id in s.runs ==> exists i :: LoggedAt(s, i, id))
    && (forall i :: 0 <= i < |s.log| ==> RunKept(digest, s, i))
    && forall i :: 0 <= i < |s.log| ==> ParentKept(s, i)
  }

  /** A workflow id identifies its run. */
  lemma FindsRun(digest: string -> string, s: State, id: string, workflowId: string)
    requires Kept(digest, s) && id in s.runs && s.runs[id].workflowId == Some(workflowId)
    ensures FindByWorkflowId(s.runs, workflowId) == Some(id) && Assigned(s.runs, workflowId) == {id}
  {
    assert id in Assigned(s.runs, workflowId);
  }

  /** A new workflow id is not in use, when a key's was looked up first. */
  lemma NewWorkflowId(digest: string -> string, s: State, key: string, id: string)
    requires Kept(digest, s) && IsUuid(id) && Repeated(digest, s, key).None?
    requires forall i :: 0 <= i < |s.log| ==> s.log[i].id != id
    ensures forall a :: a in s.runs ==> s.runs[a].workflowId != Some(WorkflowIdOf(digest, key, id))
  {
    forall a | a in s.runs ensures s.runs[a].workflowId != Some(WorkflowIdOf(digest, key, id)) {
      var i :| LoggedAt(s, i, a);
      assert RunKept(digest, s, i);
      WorkflowIdsApart(digest, s.log[i].key, key, id, a);
      WorkflowIdsApart(digest, key, key, a, id);
      var shared := IdempotentWorkflowId(digest, key);
      assert a in Assigned(s.runs, shared) <==> s.runs[a].workflowId == Some(shared);
    }
  }

  lemma NewParentKept(digest: string -> string, s: State, issue: Issue, run: Run)
    requires Kept(digest, s) && issue.id !in s.runs
    requires issue.parent.Some? ==>
               && issue.key == "" && issue.parent.value in s.runs
               && run.configuration == s.runs[issue.parent.value].configuration && run.configuration.datasetItems != []
    ensures ParentKept(WithRun(s, issue, run), |s.log|)
  {
    if issue.parent.Some? {
      var j :| LoggedAt(s, j, issue.parent.value);
      assert LoggedAt(WithRun(s, issue, run), j, issue.parent.value);
    }
  }

  /** Changing no configuration and only adding to the log keeps what a retry has. */
  lemma ParentStays(s: State, i: int, t: State)
    requires 0 <= i < |s.log| && ParentKept(s, i) && s.log <= t.log
    requires forall a :: a in s.runs ==> a in t.runs && t.runs[a].configuration == s.runs[a].configuration
    ensures ParentKept(t, i)
  {
    if s.log[i].parent.Some? {
      var j :| j < i && LoggedAt(s, j, s.log[i].parent.value);
      assert LoggedAt(t, j, s.log[i].parent.value);
    }
  }

  lemma IssueKeeps(digest: string -> string, s: State, issue: Issue, run: Run)
    requires Kept(digest, s) && IsUuid(issue.id) && (forall i :: 0 <= i < |s.log| ==> s.log[i].id != issue.id)
    requires run.workflowId == Some(WorkflowIdOf(digest, issue.key, issue.id))
    requires forall a :: a in s.runs ==> s.runs[a].workflowId != run.workflowId
    requires issue.parent.Some? ==>
               && issue.key == "" && issue.parent.value in s.runs
               && run.configuration == s.runs[issue.parent.value].configuration && run.configuration.datasetItems != []
    ensures Kept(digest, WithRun(s, issue, run))
  {
    var t := WithRun(s, issue, run);
    var n := |s.log|;
    assert issue.id !in s.runs;
    assert LoggedAt(t, n, issue.id);
    forall id | id in t.runs ensures exists i :: LoggedAt(t, i, id) {
      if id != issue.id {
        var i :| LoggedAt(s, i, id);
        assert LoggedAt(t, i, id);
      }
    }
    forall i | 0 <= i < |t.log| ensures RunKept(digest, t, i) {
      if i < n { assert RunKept(digest, s, i); }
    }
    forall i | 0 <= i < n ensures ParentKept(t, i) {
      ParentStays(s, i, t);
    }
    NewParentKept(digest, s, issue, run);
    assert DistinctRuns(t);
  }

  lemma SettleKeeps(digest: string -> string, s: State, id: string, status: Status)
    requires Kept(digest, s) && id in s.runs
    ensures Kept(digest, s.(runs := s.runs[id := s.runs[id].(status := status)]))
  {
    var t := s.(runs := s.runs[id := s.runs[id].(status := status)]);
    forall a | a in t.runs ensures exists i :: LoggedAt(t, i, a) {
      var i :| LoggedAt(s, i, a);
      assert LoggedAt(t, i, a);
    }
    forall i | 0 <= i < |t.log| ensures RunKept(digest, t, i) {
      assert RunKept(digest, s, i);
    }
    forall i | 0 <= i < |t.log| ensures ParentKept(t, i) {
      ParentStays(s, i, t);
    }
  }

  lemma StepKeeps(digest: string -> string, s: State, op: Op)
    requires Kept(digest, s) && Fresh(s, op)
    ensures Kept(digest, Step(digest, s, op))
  {
    match OutcomeOf(digest, s, op)
    case Settled => SettleKeeps(digest, s, op.source, op.status);
    case NewRun(_) =>
      if op.Create? {
        NewWorkflowId(digest, s, op.key, op.id);
        IssueKeeps(digest, s, Issue(op.id, op.key, None),
                   Run(Some(WorkflowIdOf(digest, op.key, op.id)), op.configuration, Queued));
      } else {
        NewWorkflowId(digest, s, "", op.id);
        IssueKeeps(digest, s, Issue(op.id, "", Some(op.source)),
                   Run(Some(OwnWorkflowId(op.id)), s.runs[op.source].configuration, Queued));
      }
    case _ =>
  }

  // ----- Histories -----

  ghost function After(digest: string -> string, ops: seq<Op>): State {
    if ops == [] then EMPTY else Step(digest, After(digest, ops[..|ops| - 1]), ops[|ops| - 1])
  }

  ghost predicate FreshHistory(digest: string -> string, ops: seq<Op>) {
    ops == [] || (FreshHistory(digest, ops[..|ops| - 1]) && Fresh(After(digest, ops[..|ops| - 1]), ops[|ops| - 1]))
  }

  /** The outcome of the `i`-th request of a history. */
  ghost function OutcomeAt(digest: string -> string, ops: seq<Op>, i: nat): Outcome
    requires i < |ops|
  {
    OutcomeOf(digest, After(digest, ops[..i]), ops[i])
  }

  /** In every reachable store all runs have distinct workflow ids, and every
      retry has the configuration of its source with a non-empty dataset. */
  lemma {:induction false} ReachableKept(digest: string -> string, ops: seq<Op>)
    requires FreshHistory(digest, ops)
    ensures Kept(digest, After(digest, ops))
  {
    if ops == [] {
    } else {
      ReachableKept(digest, ops[..|ops| - 1]);
      StepKeeps(digest, After(digest, ops[..|ops| - 1]), ops[|ops| - 1]);
    }
  }

  /** A run keeps its workflow id and its configuration. */
  lemma StepKeepsRuns(digest: string -> string, s: State, op: Op, id: string)
    requires Kept(digest, s) && Fresh(s, op) && id in s.runs
    ensures var t := Step(digest, s, op);
            && id in t.runs && t.runs[id].workflowId == s.runs[id].workflowId
            && t.runs[id].configuration == s.runs[id].configuration
  {
    var i :| LoggedAt(s, i, id);
  }

  lemma {:induction false} FreshPrefix(digest: string -> string, ops: seq<Op>, n: nat)
    requires FreshHistory(digest, ops) && n <= |ops|
    ensures FreshHistory(digest, ops[..n])
  {
    if n == |ops| {
      assert ops[..n] == ops;
    } else {
      assert ops[..|ops| - 1][..n] == ops[..n];
      FreshPrefix(digest, ops[..|ops| - 1], n);
    }
  }

  lemma {:induction false} RunPersists(digest: string -> string, ops: seq<Op>, n: nat, id: string)
    requires FreshHistory(digest, ops) && n <= |ops| && id in After(digest, ops[..n]).runs
    ensures id in After(digest, ops).runs
    ensures After(digest, ops).runs[id].workflowId == After(digest, ops[..n]).runs[id].workflowId
    ensures After(digest, ops).runs[id].configuration == After(digest, ops[..n]).runs[id].configuration
  {
    if n == |ops| {
      assert ops[..n] == ops;
    } else {
      var m := |ops| - 1;
      assert ops[..m][..n] == ops[..n];
      RunPersists(digest, ops[..m], n, id);
      ReachableKept(digest, ops[..m]);
      StepKeepsRuns(digest, After(digest, ops[..m]), ops[m], id);
    }
  }

  /** A create request with the key of a stored run gets that run and changes nothing. */
  lemma RepeatFinds(digest: string -> string, s: State, op: Op, id: string)
    requires Kept(digest, s) && op.Create? && op.key != "" && op.ownsEvaluation && op.ownsExisting
    requires id in s.runs && s.runs[id].workflowId == Some(IdempotentWorkflowId(digest, op.key))
    ensures OutcomeOf(digest, s, op) == Existing(id) && Step(digest, s, op) == s
  {
    FindsRun(digest, s, id, IdempotentWorkflowId(digest, op.key));
  }

  lemma AfterOneMore(digest: string -> string, ops: seq<Op>, i: nat)
    requires i < |ops|
    ensures After(digest, ops[..i + 1]) == Step(digest, After(digest, ops[..i]), ops[i])
  {
    assert ops[..i + 1][..i] == ops[..i];
  }

  /** A new run of a request with a key is stored under that key's workflow id. */
  lemma NewRunStored(digest: string -> string, s: State, op: Op)
    requires op.Create? && op.key != "" && OutcomeOf(digest, s, op).NewRun?
    ensures var runs := Step(digest, s, op).runs;
            op.id in runs && runs[op.id].workflowId == Some(IdempotentWorkflowId(digest, op.key))
  {
  }

  /** A create request that repeats the key of an earlier successful one gets that
      run, however much has happened in between and whatever its body says. */
  lemma RepeatedKeyReturnsFirst(digest: string -> string, ops: seq<Op>, i: nat, j: nat)
    requires FreshHistory(digest, ops) && i < j < |ops|
    requires ops[i].Create? && ops[j].Create? && ops[i].key == ops[j].key != ""
    requires OutcomeAt(digest, ops, i).NewRun? && ops[j].ownsEvaluation && ops[j].ownsExisting
    ensures OutcomeAt(digest, ops, j) == Existing(ops[i].id)
    ensures After(digest, ops[..j + 1]) == After(digest, ops[..j])
  {
    var before := ops[..j];
    AfterOneMore(digest, ops, i);
    AfterOneMore(digest, ops, j);
    NewRunStored(digest, After(digest, ops[..i]), ops[i]);
    assert before[..i + 1] == ops[..i + 1];
    FreshPrefix(digest, ops, j);
    RunPersists(digest, before, i + 1, ops[i].id);
    ReachableKept(digest, before);
    RepeatFinds(digest, After(digest, before), ops[j], ops[i].id);
  }

  // ----- Counting runs -----

  /** The digest that a request newly uses or uses again. */
  ghost function DigestOf(digest: string -> string, s: State, op: Op): set<string> {
    var outcome := OutcomeOf(digest, s, op);
    if op.Create? && op.key != "" && (outcome.NewRun? || outcome.Existing?) then {digest(op.key)} else {}
  }

  /** The digests of the keys that create requests were accepted with. */
  ghost function AcceptedDigests(digest: string -> string, ops: seq<Op>): set<string> {
    if ops == [] then {}
    else
      var before, op := ops[..|ops| - 1], ops[|ops| - 1];
      AcceptedDigests(digest, before) + DigestOf(digest, After(digest, before), op)
  }

  ghost function UnkeyedOf(digest: string -> string, s: State, op: Op): nat {
    if OutcomeOf(digest, s, op).NewRun? && (op.Retry? || op.key == "") then 1 else 0
  }

  /** New runs without a key: unkeyed creates and retries. */
  ghost function UnkeyedRuns(digest: string -> string, ops: seq<Op>): nat {
    if ops == [] then 0
    else
      var before, op := ops[..|ops| - 1], ops[|ops| - 1];
      UnkeyedRuns(digest, before) + UnkeyedOf(digest, After(digest, before), op)
  }

  /** A digest has been accepted exactly when some run has its workflow id. */
  ghost predicate DigestsHeld(runs: map<string, Run>, accepted: set<string>) {
    forall d :: d in accepted <==> Assigned(runs, "evaluation-run-idem-" + d) != {}
  }

  lemma SettleAssigned(runs: map<string, Run>, id: string, status: Status, workflowId: string)
    requires id in runs
    ensures Assigned(runs[id := runs[id].(status := status)], workflowId) == Assigned(runs, workflowId)
  {
  }

  lemma NewAssigned(runs: map<string, Run>, id: string, run: Run, workflowId: string)
    requires id !in runs
    ensures Assigned(runs[id := run], workflowId)
         == Assigned(runs, workflowId) + if run.workflowId == Some(workflowId) then {id} else {}
  {
  }

  lemma SharedIdOfDigest(digest: string -> string, key: string, d: string, id: string)
    requires IsUuid(id)
    ensures "evaluation-run-idem-" + d == IdempotentWorkflowId(digest, key) <==> d == digest(key)
    ensures OwnWorkflowId(id) != "evaluation-run-idem-" + d
  {
    var shared := "evaluation-run-idem-" + d;
    assert shared[20..] == d && IdempotentWorkflowId(digest, key)[20..] == digest(key);
    assert OwnWorkflowId(id)[15] == id[0] && shared[15] == 'i';
  }

  lemma StepDigests(digest: string -> string, s: State, op: Op, d: string)
    requires Kept(digest, s) && Fresh(s, op)
    ensures var shared := "evaluation-run-idem-" + d;
            Assigned(Step(digest, s, op).runs, shared) != {} <==>
              Assigned(s.runs, shared) != {} || d in DigestOf(digest, s, op)
  {
    var shared := "evaluation-run-idem-" + d;
    match OutcomeOf(digest, s, op)
    case Settled => SettleAssigned(s.runs, op.source, op.status, shared);
    case Existing(id) =>
      SharedIdOfDigest(digest, op.key, d, op.id);
      assert id in Assigned(s.runs, IdempotentWorkflowId(digest, op.key));
    case NewRun(_) =>
      SharedIdOfDigest(digest, if op.Create? then op.key else "", d, op.id);
      assert op.id !in s.runs;
      NewAssigned(s.runs, op.id, Step(digest, s, op).runs[op.id], shared);
    case Rejected(_) =>
  }

  lemma AddedSize(accepted: set<string>, d: string)
    ensures |accepted + {d}| == |accepted| + if d in accepted then 0 else 1
  {
    if d in accepted { assert accepted + {d} == accepted; }
  }

  lemma StepHolds(digest: string -> string, s: State, op: Op, accepted: set<string>)
    requires Kept(digest, s) && Fresh(s, op) && DigestsHeld(s.runs, accepted)
    ensures DigestsHeld(Step(digest, s, op).runs, accepted + DigestOf(digest, s, op))
  {
    var t, more := Step(digest, s, op).runs, DigestOf(digest, s, op);
    forall d ensures d in accepted + more <==> Assigned(t, "evaluation-run-idem-" + d) != {} {
      StepDigests(digest, s, op, d);
    }
  }

  lemma SizeUpdated(runs: map<string, Run>, id: string, run: Run)
    ensures |runs[id := run]| == |runs| + if id in runs then 0 else 1
  {
    assert runs[id := run].Keys == runs.Keys + {id};
    AddedSize(runs.Keys, id);
    assert |runs| == |runs.Keys| && |runs[id := run]| == |runs[id := run].Keys|;
  }

  lemma StepSize(digest: string -> string, s: State, op: Op)
    requires Kept(digest, s) && Fresh(s, op)
    ensures |Step(digest, s, op).runs| == |s.runs| + if OutcomeOf(digest, s, op).NewRun? then 1 else 0
    ensures op.Create? && op.key != "" ==>
              var shared := Assigned(s.runs, "evaluation-run-idem-" + digest(op.key));
              && (OutcomeOf(digest, s, op).NewRun? ==> shared == {})
              && (OutcomeOf(digest, s, op).Existing? ==> shared != {})
  {
    match OutcomeOf(digest, s, op)
    case Settled => SizeUpdated(s.runs, op.source, s.runs[op.source].(status := op.status));
    case NewRun(_) =>
      assert op.id !in s.runs;
      SizeUpdated(s.runs, op.id, Step(digest, s, op).runs[op.id]);
    case _ =>
  }

  /** A digest that a request uses had been accepted exactly when the run existed. */
  lemma DigestAccepted(digest: string -> string, s: State, op: Op, accepted: set<string>)
    requires Kept(digest, s) && Fresh(s, op) && DigestsHeld(s.runs, accepted) && DigestOf(digest, s, op) != {}
    ensures op.Create? && DigestOf(digest, s, op) == {digest(op.key)} && UnkeyedOf(digest, s, op) == 0
    ensures digest(op.key) in accepted <==> OutcomeOf(digest, s, op).Existing?
    ensures digest(op.key) !in accepted <==> OutcomeOf(digest, s, op).NewRun?
  {
    StepSize(digest, s, op);
  }

  /** A step adds a run exactly when it uses a digest not accepted before, or its
      outcome is a new run without a key. */
  lemma StepCounts(digest: string -> string, s: State, op: Op, accepted: set<string>)
    requires Kept(digest, s) && Fresh(s, op) && DigestsHeld(s.runs, accepted)
    ensures |Step(digest, s, op).runs| - |s.runs|
         == |accepted + DigestOf(digest, s, op)| - |accepted| + UnkeyedOf(digest, s, op)
  {
    StepSize(digest, s, op);
    if DigestOf(digest, s, op) == {} {
      assert accepted + {} == accepted;
    } else {
      AddedSize(accepted, digest(op.key));
      DigestAccepted(digest, s, op, accepted);
    }
  }

  lemma {:induction false} RunsCounted(digest: string -> string, ops: seq<Op>)
    requires FreshHistory(digest, ops)
    ensures DigestsHeld(After(digest, ops).runs, AcceptedDigests(digest, ops))
    ensures |After(digest, ops).runs| == |AcceptedDigests(digest, ops)| + UnkeyedRuns(digest, ops)
  {
    if ops == [] {
    } else {
      var before := ops[..|ops| - 1];
      RunsCounted(digest, before);
      ReachableKept(digest, before);
      StepHolds(digest, After(digest, before), ops[|ops| - 1], AcceptedDigests(digest, before));
      StepCounts(digest, After(digest, before), ops[|ops| - 1], AcceptedDigests(digest, before));
    }
  }

  /** The keys that create requests were accepted with. */
  ghost function AcceptedKeys(digest: string -> string, ops: seq<Op>): set<string> {
    if ops == [] then {}
    else
      var before, op := ops[..|ops| - 1], ops[|ops| - 1];
      var outcome := OutcomeOf(digest, After(digest, before), op);
      AcceptedKeys(digest, before)
      + if op.Create? && op.key != "" && (outcome.NewRun? || outcome.Existing?) then {op.key} else {}
  }

  lemma {:induction false} DigestsOfKeys(digest: string -> string, ops: seq<Op>)
    ensures AcceptedDigests(digest, ops) == set k | k in AcceptedKeys(digest, ops) :: digest(k)
  {
    if ops == [] {
    } else {
      DigestsOfKeys(digest, ops[..|ops| - 1]);
    }
  }

  lemma {:induction false} InjectiveSize(digest: string -> string, keys: set<string>)
    requires forall a, b :: a in keys && b in keys && digest(a) == digest(b) ==> a == b
    ensures |set k | k in keys :: digest(k)| == |keys|
  {
    if keys != {} {
      var key :| key in keys;
      InjectiveSize(digest, keys - {key});
      assert (set k | k in keys :: digest(k)) == (set k | k in keys - {key} :: digest(k)) + {digest(key)};
    } else {
      assert (set k | k in keys :: digest(k)) == {};
    }
  }

  /** The number of runs is the number of distinct keys plus the unkeyed creates
      and the retries, as long as no two of the keys share a digest. */
  lemma RunCount(digest: string -> string, ops: seq<Op>)
    requires FreshHistory(digest, ops)
    requires var keys := AcceptedKeys(digest, ops);
             forall a, b :: a in keys && b in keys && digest(a) == digest(b) ==> a == b
    ensures |After(digest, ops).runs| == |AcceptedKeys(digest, ops)| + UnkeyedRuns(digest, ops)
  {
    RunsCounted(digest, ops);
    DigestsOfKeys(digest, ops);
    InjectiveSize(digest, AcceptedKeys(digest, ops));
  }

  // ----- Retry chains -----

  /** Runs by their place in the log, each a retry of the one before it. */
  ghost predicate RetryChain(s: State, chain: seq<nat>) {
    && (forall k :: 0 <= k < |chain| ==> chain[k] < |s.log|)
    && forall k :: 0 <= k < |chain| - 1 ==> s.log[chain[k + 1]].parent == Some(s.log[chain[k]].id)
  }

  /** One link of a chain. */
  lemma RetryLink(digest: string -> string, s: State, chain: seq<nat>, k: nat)
    requires Kept(digest, s) && RetryChain(s, chain) && k + 1 < |chain|
    ensures var a, b := s.log[chain[k]].id, s.log[chain[k + 1]].id;
            && chain[k] < chain[k + 1] && a in s.runs && b in s.runs
            && s.runs[b].configuration == s.runs[a].configuration && s.runs[b].configuration.datasetItems != []
  {
    assert ParentKept(s, chain[k + 1]) && RunKept(digest, s, chain[k]);
    var j :| j < chain[k + 1] && LoggedAt(s, j, s.log[chain[k]].id);
    assert j == chain[k];
  }

  /** Along a retry chain every later run was created later, so chains have no
      cycles, and has its root's configuration, with the dataset a retry needs. */
  lemma {:induction false} RetryChainConstant(digest: string -> string, s: State, chain: seq<nat>, k: nat)
    requires Kept(digest, s) && RetryChain(s, chain) && k < |chain|
    ensures s.log[chain[0]].id in s.runs && s.log[chain[k]].id in s.runs
    ensures k > 0 ==> chain[0] < chain[k]
    ensures s.runs[s.log[chain[k]].id].configuration == s.runs[s.log[chain[0]].id].configuration
    ensures |chain| > 1 ==> s.runs[s.log[chain[k]].id].configuration.datasetItems != []
  {
    assert RunKept(digest, s, chain[0]);
    if |chain| > 1 { RetryLink(digest, s, chain, 0); }
    if k > 0 {
      RetryChainConstant(digest, s, chain, k - 1);
      RetryLink(digest, s, chain, k - 1);
    }
  }

  // ----- The endpoints -----

  class RunService {
    const digest: string -> string
    var runs: map<string, Run>
    ghost var log: seq<Issue>

    ghost function Store(): State
      reads this
    {
      State(runs, log)
    }

    constructor (digest: string -> string)
      ensures this.digest == digest && Store() == EMPTY && Kept(digest, Store())
    {
      this.digest, runs, log := digest, map[], [];
    }

    method Find(workflowId: string) returns (r: Option<string>)
      requires Kept(digest, Store())
      ensures r == FindByWorkflowId(runs, workflowId)
    {
      var ids := Assigned(runs, workflowId);
      if ids == {} {
        return None;
      }
      var id :| id in ids;
      FindsRun(digest, Store(), id, workflowId);
      r := Some(id);
    }

    /** Saves the run, starts its workflow, queues it and records the workflow id;
        if the workflow does not start, the session is rolled back. */
    method Schedule(id: string, run: Run, workflowId: string, starts: bool) returns (ok: bool)
      modifies this`runs
      ensures ok == starts
      ensures runs == if starts then old(runs)[id := run.(status := Queued, workflowId := Some(workflowId))]
                      else old(runs)
    {
      var committed := runs;
      runs := runs[id := run];
      if !starts {
        runs := committed;
        return false;
      }
      runs := runs[id := runs[id].(status := Queued)];
      runs := runs[id := runs[id].(workflowId := Some(workflowId))];
      ok := true;
    }

    method CreateRun(id: string, key: string, bodyWorkflowId: Option<string>, configuration: Configuration,
                     ownsEvaluation: bool, ownsExisting: bool, workflowStarts: bool) returns (r: Outcome)
      requires Kept(digest, Store())
      requires Fresh(Store(), Create(id, key, bodyWorkflowId, configuration, ownsEvaluation, ownsExisting,
                                     workflowStarts))
      modifies this
      ensures Kept(digest, Store())
      ensures var op := Create(id, key, bodyWorkflowId, configuration, ownsEvaluation, ownsExisting, workflowStarts);
              r == OutcomeOf(digest, old(Store()), op) && Store() == Step(digest, old(Store()), op)
    {
      ghost var op := Create(id, key, bodyWorkflowId, configuration, ownsEvaluation, ownsExisting, workflowStarts);
      StepKeeps(digest, Store(), op);
      if !ownsEvaluation {
        return Rejected("evaluation not found");
      }
      if key != "" {
        var existing := Find(IdempotentWorkflowId(digest, key));
        if existing.Some? {
          return if ownsExisting then Existing(existing.value) else Rejected("Access denied");
        }
      }
      if configuration.provider == "" {
        return Rejected("Provider is required");
      }
      if configuration.model == "" {
        return Rejected("Model is required");
      }
      var run := Run(bodyWorkflowId, configuration, Created);
      var ok := Schedule(id, run, WorkflowIdOf(digest, key, id), workflowStarts);
      if !ok {
        return Rejected("workflow not started");
      }
      log := log + [Issue(id, key, None)];
      r := NewRun(id);
    }

    method RetryRun(source: string, id: string, ownsSource: bool, workflowStarts: bool) returns (r: Outcome)
      requires Kept(digest, Store()) && Fresh(Store(), Retry(source, id, ownsSource, workflowStarts))
      modifies this
      ensures Kept(digest, Store())
      ensures var op := Retry(source, id, ownsSource, workflowStarts);
              r == OutcomeOf(digest, old(Store()), op) && Store() == Step(digest, old(Store()), op)
    {
      StepKeeps(digest, Store(), Retry(source, id, ownsSource, workflowStarts));
      if source !in runs {
        return Rejected("Evaluation run not found");
      }
      if !ownsSource {
        return Rejected("Access denied");
      }
      var run := runs[source];
      if run.status !in {Failed, TimedOut} {
        return Rejected("Only failed or timed-out runs can be retried");
      }
      if run.configuration.datasetItems == [] {
        return Rejected("original dataset inputs were not persisted");
      }
      var ok := Schedule(id, Run(None, run.configuration, Created), OwnWorkflowId(id), workflowStarts);
      if !ok {
        return Rejected("workflow not started");
      }
      log := log + [Issue(id, "", Some(source))];
      r := NewRun(id);
    }
  }
}
