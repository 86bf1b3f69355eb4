/** Progress reconciliation: cumulative snapshots, delivered at least once and in
    any order, turned into increments on a run
    (backend/app/evaluation/application/run_handlers.py, `UpdateRunProgressHandler`,
    and its twin for agent steps in backend/app/agents/application/run_handlers.py).
    The two aggregates have the same counters and the same recording methods; one
    class stands for both, with items for steps. */
module RunProgress {
  import opened Wrappers
  import opened Collections
  import opened Integers

  /** The progress columns of a run. */
  datatype Progress = Progress(
    completed: int, failed: int, tokenInput: int, tokenOutput: int, cost: real, averageLatencyMs: int)

  const NO_PROGRESS := Progress(0, 0, 0, 0, 0.0, 0)

  /** The command: totals since the start of the run, and one latency. */
  datatype Snapshot = Snapshot(
    runId: string, completed: int, failed: int, tokenInput: int, tokenOutput: int, cost: real, latencyMs: int)

  // ----- The aggregate -----

  /** `record_latency` on the counters at that moment; the divisor is positive. */
  function WithLatency(p: Progress, latencyMs: int): Progress {
    p.(averageLatencyMs :=
         if p.completed <= 0 then latencyMs
         else (p.averageLatencyMs * p.completed + latencyMs) / (p.completed + 1))
  }

  class EvaluationRun {
    var itemsCompleted: int
    var itemsFailed: int
    var tokenInput: int
    var tokenOutput: int
    var cost: real
    var averageLatencyMs: int

    ghost function Current(): Progress
      reads this
    {
      Progress(itemsCompleted, itemsFailed, tokenInput, tokenOutput, cost, averageLatencyMs)
    }

    constructor (row: Progress)
      ensures Current() == row
    {
      itemsCompleted, itemsFailed := row.completed, row.failed;
      tokenInput, tokenOutput := row.tokenInput, row.tokenOutput;
      cost, averageLatencyMs := row.cost, row.averageLatencyMs;
    }

    method RecordItemSuccess()
      modifies this`itemsCompleted
      ensures itemsCompleted == old(itemsCompleted) + 1
    {
      itemsCompleted := itemsCompleted + 1;
    }

    method RecordItemFailure()
      modifies this`itemsCompleted, this`itemsFailed
      ensures itemsCompleted == old(itemsCompleted) + 1 && itemsFailed == old(itemsFailed) + 1
    {
      itemsFailed := itemsFailed + 1;
      itemsCompleted := itemsCompleted + 1;
    }

    method RecordTokenUsage(inputTokens: int, outputTokens: int)
      modifies this`tokenInput, this`tokenOutput
      ensures tokenInput == old(tokenInput) + inputTokens && tokenOutput == old(tokenOutput) + outputTokens
    {
      tokenInput := tokenInput + inputTokens;
      tokenOutput := tokenOutput + outputTokens;
    }

    method RecordCost(costUsd: real)
      modifies this`cost
      ensures cost == old(cost) + costUsd
    {
      cost := cost + costUsd;
    }

    method RecordLatency(latencyMs: int)
      modifies this`averageLatencyMs
      ensures Current() == WithLatency(old(Current()), latencyMs)
    {
      var completed := itemsCompleted;
      if completed <= 0 {
        averageLatencyMs := latencyMs;
      } else {
        var total := averageLatencyMs * completed + latencyMs;
        averageLatencyMs := total / (completed + 1);
      }
    }
  }

  // ----- The handler -----

  function MaxReal(a: real, b: real): real {
    if a < b then b else a
  }

  /** The new items a snapshot reports, and the new failures. */
  function ProcessedDelta(p: Progress, c: Snapshot): nat { Max(c.completed - p.completed, 0) }
  function FailedDelta(p: Progress, c: Snapshot): nat { Max(c.failed - p.failed, 0) }

  /** The row after a snapshot: every failure counts as an item, and successes
      fill up the rest of the new items. */
  function Apply(p: Progress, c: Snapshot): Progress {
    var counted := Progress(
      p.completed + Max(ProcessedDelta(p, c), FailedDelta(p, c)), Max(p.failed, c.failed),
      Max(p.tokenInput, c.tokenInput), Max(p.tokenOutput, c.tokenOutput), MaxReal(p.cost, c.cost),
      p.averageLatencyMs);
    if c.latencyMs != 0 then WithLatency(counted, c.latencyMs) else counted
  }

  class RunRepository {
    var rows: map<string, Progress>

    constructor ()
      ensures rows == map[]
    {
      rows := map[];
    }

    method PersistProgress(id: string, run: EvaluationRun)
      modifies this
      ensures rows == old(rows)[id := run.Current()]
    {
      rows := rows[id := Progress(run.itemsCompleted, run.itemsFailed, run.tokenInput, run.tokenOutput, run.cost,
                                  run.averageLatencyMs)];
    }
  }

  /** The counted loops of recordings amount to `Apply`; no other run changes, and
      an unknown run changes nothing. */
  method Handle(repository: RunRepository, command: Snapshot) returns (r: Result<EvaluationRun>)
    modifies repository
    ensures r.Raise? <==> command.runId !in old(repository.rows)
    ensures r.Raise? ==> repository.rows == old(repository.rows)
    ensures r.Ok? ==> fresh(r.value) && r.value.Current() == Apply(old(repository.rows)[command.runId], command)
    ensures r.Ok? ==> repository.rows == old(repository.rows)[command.runId := r.value.Current()]
  {
    if command.runId !in repository.rows {
      return Raise("Evaluation run not found: " + command.runId);
    }
    ghost var p := repository.rows[command.runId];
    var run := new EvaluationRun(repository.rows[command.runId]);

    var processedDelta := Max(command.completed - run.itemsCompleted, 0);
    var failedDelta := Max(command.failed - run.itemsFailed, 0);
    var successDelta := Max(processedDelta - failedDelta, 0);
    for i := 0 to successDelta
      invariant repository.rows == old(repository.rows)
      invariant run.Current() == p.(completed := p.completed + i)
    {
      run.RecordItemSuccess();
    }
    for i := 0 to failedDelta
      invariant repository.rows == old(repository.rows)
      invariant run.Current() == p.(completed := p.completed + successDelta + i, failed := p.failed + i)
    {
      run.RecordItemFailure();
    }

    var tokenInputDelta := Max(command.tokenInput - run.tokenInput, 0);
    var tokenOutputDelta := Max(command.tokenOutput - run.tokenOutput, 0);
    if tokenInputDelta != 0 || tokenOutputDelta != 0 {
      run.RecordTokenUsage(tokenInputDelta, tokenOutputDelta);
    }

    var costDelta := MaxReal(command.cost - run.cost, 0.0);
    if costDelta != 0.0 {
      run.RecordCost(costDelta);
    }
    if command.latencyMs != 0 {
      run.RecordLatency(command.latencyMs);
    }
    repository.PersistProgress(command.runId, run);
    r := Ok(run);
  }

  // ----- What one snapshot does -----

  /** Equality of everything but the average latency. */
  predicate SameCounters(p: Progress, q: Progress) {
    p.(averageLatencyMs := 0) == q.(averageLatencyMs := 0)
  }

  /** Repeating a snapshot does not double-count, whatever it says; only the
      average latency moves again. */
  lemma ApplyIdempotent(p: Progress, c: Snapshot)
    ensures SameCounters(Apply(Apply(p, c), c), Apply(p, c))
    ensures c.latencyMs == 0 ==> Apply(Apply(p, c), c) == Apply(p, c)
  {
  }

  /** Nothing goes down, and failures never exceed the completed items. */
  lemma ApplyKeepsOrder(p: Progress, c: Snapshot)
    requires p.failed <= p.completed
    ensures var q := Apply(p, c);
            && p.completed <= q.completed && p.failed <= q.failed <= q.completed
            && p.tokenInput <= q.tokenInput && p.tokenOutput <= q.tokenOutput && p.cost <= q.cost
  {
  }

  /** The completed count reaches the snapshot's exactly when the snapshot does
      not report more new failures than new items; otherwise it overshoots by the
      difference. */
  lemma ApplyReachesExactly(p: Progress, c: Snapshot)
    ensures Apply(p, c).completed == Max(p.completed, c.completed) <==> FailedDelta(p, c) <= ProcessedDelta(p, c)
    ensures FailedDelta(p, c) > ProcessedDelta(p, c) ==>
              Apply(p, c).completed == Max(p.completed, c.completed) + FailedDelta(p, c) - ProcessedDelta(p, c)
  {
  }

  /** A run that has completed five items learns that two of those had failed,
      and counts seven. */
  lemma ApplyOvershoots()
    ensures exists p: Progress, c: Snapshot ::
              p.failed <= p.completed && c.failed <= c.completed == p.completed < Apply(p, c).completed
  {
    var p, c := Progress(5, 0, 0, 0, 0.0, 0), Snapshot("", 5, 2, 0, 0, 0.0, 0);
    assert Apply(p, c).completed == 7;
  }

  /** Repeating a snapshot changes nothing at all exactly when it has no latency, or
      the run has no items, or its latency lies above the average it led to by no
      more than the number of items. */
  lemma RepeatChangesNothingExactly(p: Progress, c: Snapshot)
    ensures var q := Apply(p, c);
            Apply(q, c) == q <==>
            c.latencyMs == 0 || q.completed <= 0 || 0 <= c.latencyMs - q.averageLatencyMs <= q.completed
  {
    var q := Apply(p, c);
    ApplyIdempotent(p, c);
    if q.completed > 0 {
      QuotientIs(q.averageLatencyMs * q.completed + c.latencyMs, q.completed + 1, q.averageLatencyMs);
    }
  }

  /** An average of 50 over one item is not yet the 100 that the snapshot reports, so
      repeating it counts; which is why the average is not part of the convergence
      below. */
  lemma LatencyIsNotIdempotent()
    ensures var p, c := Progress(1, 0, 0, 0, 0.0, 0), Snapshot("", 1, 0, 0, 0, 0.0, 100);
            Apply(p, c).averageLatencyMs == 50 && Apply(Apply(p, c), c) != Apply(p, c)
  {
    var p, c := Progress(1, 0, 0, 0, 0.0, 0), Snapshot("", 1, 0, 0, 0, 0.0, 100);
    assert Apply(p, c).averageLatencyMs == 50;
    RepeatChangesNothingExactly(p, c);
  }

  // ----- Any delivery of a cumulative history -----

  /** `b` is a later snapshot of the same work as `a`. */
  predicate Later(a: Snapshot, b: Snapshot) {
    && a.completed <= b.completed && a.failed <= b.failed && a.completed - a.failed <= b.completed - b.failed
    && a.tokenInput <= b.tokenInput && a.tokenOutput <= b.tokenOutput && a.cost <= b.cost
  }

  const NOTHING_YET := Snapshot("", 0, 0, 0, 0, 0.0, 0)

  ghost predicate Cumulative(history: seq<Snapshot>) {
    && (forall i :: 0 <= i < |history| ==> Later(NOTHING_YET, history[i]))
    && forall i, j :: 0 <= i < j < |history| ==> Later(history[i], history[j])
  }

  /** The row holds a snapshot's totals. */
  predicate Holds(p: Progress, c: Snapshot) {
    && p.completed == c.completed && p.failed == c.failed && p.tokenInput == c.tokenInput
    && p.tokenOutput == c.tokenOutput && p.cost == c.cost
  }

  predicate InRange(order: seq<nat>, n: nat) {
    forall i :: 0 <= i < |order| ==> order[i] < n
  }

  /** Delivering the snapshots with the given positions, in that order. */
  function Deliver(p: Progress, history: seq<Snapshot>, order: seq<nat>): Progress
    requires InRange(order, |history|)
  {
    if order == [] then p
    else Apply(Deliver(p, history, order[..|order| - 1]), history[order[|order| - 1]])
  }

  function Newest(order: seq<nat>): int {
    if order == [] then -1 else Max(Newest(order[..|order| - 1]), order[|order| - 1])
  }

  lemma {:induction false} NewestIsLargest(order: seq<nat>)
    ensures forall k :: k in order ==> k <= Newest(order)
    ensures order != [] ==> Newest(order) >= 0 && Newest(order) in order
  {
    if order == [] {
    } else {
      var n := |order| - 1;
      NewestIsLargest(order[..n]);
      assert order[n] in order;
      forall k | k in order ensures k in order[..n] || k == order[n] {
        var i :| 0 <= i < |order| && order[i] == k;
        if i < n { assert order[..n][i] == k; }
      }
      if Newest(order) != order[n] { assert Newest(order) in order[..n]; }
    }
  }

  /** Any delivery of snapshots from one cumulative history to a fresh run, with
      repetitions and out of order, leaves the run with the totals of the newest
      snapshot delivered; failures never exceed completed items on the way. */
  lemma {:induction false} DeliveryConverges(history: seq<Snapshot>, order: seq<nat>)
    requires Cumulative(history)
    requires InRange(order, |history|)
    ensures var p := Deliver(NO_PROGRESS, history, order);
            && p.failed <= p.completed
            && -1 <= Newest(order) < |history|
            && Holds(p, if order == [] then NOTHING_YET else history[Newest(order)])
  {
    NewestIsLargest(order);
    if order != [] {
      var n := |order| - 1;
      var before := order[..n];
      DeliveryConverges(history, before);
      var c := history[order[n]];
      if before != [] {
        var newest := history[Newest(before)];
        assert if order[n] <= Newest(before) then Later(c, newest) else Later(newest, c);
      }
    }
  }

  /** Hence the order and the repetitions do not matter. */
  lemma DeliveryOrderIrrelevant(history: seq<Snapshot>, order: seq<nat>, other: seq<nat>)
    requires Cumulative(history)
    requires InRange(order, |history|) && InRange(other, |history|)
    requires forall k :: k in order <==> k in other
    ensures SameCounters(Deliver(NO_PROGRESS, history, order), Deliver(NO_PROGRESS, history, other))
  {
    DeliveryConverges(history, order);
    DeliveryConverges(history, other);
    NewestIsLargest(order);
    NewestIsLargest(other);
    if order != [] { assert order[0] in other; }
    if other != [] { assert other[0] in order; }
  }
}
