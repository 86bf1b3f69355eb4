/** Checkpoints at an interval of completed steps
    (backend/app/ai/core/checkpoint.py, backend/app/agents/runtime/checkpoint.py). */
module Checkpoints {
  import opened Wrappers
  import opened Collections
  import opened Integers

  // ----- Cadence -----

  /** Python's `//` */
  function FloorDiv(a: int, b: int): int
    requires b != 0
  {
    if b > 0 then a / b else -a / -b
  }

  predicate ShouldCheckpoint(completed: int, interval: int)
    requires completed != 0 ==> interval != 0
  {
    completed != 0 && completed - FloorDiv(completed, interval) * interval == 0
  }

  function NextTarget(completed: int, interval: int): int
    requires interval != 0
  {
    (FloorDiv(completed, interval) + 1) * interval
  }

  /** The distance between checkpoints. */
  function Period(interval: int): int {
    if interval < 0 then -interval else interval
  }

  /** A checkpoint is due at the multiples of the interval, whatever its sign. */
  lemma DueExactly(completed: int, interval: int)
    requires interval != 0
    ensures ShouldCheckpoint(completed, interval) <==> completed != 0 && completed % Period(interval) == 0
  {
    var b := Period(interval);
    var a := if interval > 0 then completed else -completed;
    assert a == a / b * b + a % b;
    assert FloorDiv(completed, interval) * interval == if interval > 0 then a / b * b else -(a / b * b);
    assert completed == completed / b * b + completed % b;
    if completed % b == 0 {
      DivisionUnique(-completed, b, -(completed / b), 0);
    } else {
      DivisionUnique(-completed, b, -(completed / b) - 1, b - completed % b);
    }
  }

  /** The target is the first count above `completed` at which a checkpoint is due;
      with a negative interval there is no such promise, the target is not above. */
  lemma NextTargetIsNextDue(completed: nat, interval: int, count: int)
    requires interval != 0
    ensures completed < NextTarget(completed, interval) <==> interval > 0
    ensures interval > 0 ==> ShouldCheckpoint(NextTarget(completed, interval), interval)
    ensures completed < count < NextTarget(completed, interval) ==> !ShouldCheckpoint(count, interval)
  {
    var q := FloorDiv(completed, interval);
    var target := (q + 1) * interval;
    assert target == q * interval + interval;
    if interval > 0 {
      DivisionUnique(target, interval, q + 1, 0);
      if completed < count < target {
        DivisionUnique(count, interval, q, count - q * interval);
      }
    } else {
      assert q * interval == -(q * -interval);
    }
  }

  // ----- Saving -----

  datatype Checkpoint = Checkpoint(
    runId: string, checkpointNumber: int, stepsCompleted: int, stepsTotal: int, lastStepIndex: int)

  datatype CheckpointCreated = CheckpointCreated(runId: string, checkpointNumber: int, stepsCompleted: int)

  const DEFAULT_CHECKPOINT_INTERVAL := 5

  class AgentRun {
    const id: string
    const checkpointInterval: int
    const stepsTotal: int
    var stepsCompleted: int
    var checkpoint: Option<Checkpoint>
    var events: seq<CheckpointCreated>

    constructor (id: string, checkpointInterval: int, stepsTotal: int)
      ensures this.id == id && this.checkpointInterval == checkpointInterval && this.stepsTotal == stepsTotal
      ensures stepsCompleted == 0 && checkpoint == None && events == []
    {
      this.id := id;
      this.checkpointInterval := checkpointInterval;
      this.stepsTotal := stepsTotal;
      stepsCompleted, checkpoint, events := 0, None, [];
    }

    method SaveCheckpoint(c: Checkpoint)
      modifies this
      ensures checkpoint == Some(c) && stepsCompleted == old(stepsCompleted)
      ensures events == old(events) + [CheckpointCreated(id, c.checkpointNumber, stepsCompleted)]
    {
      checkpoint := Some(c);
      events := events + [CheckpointCreated(id, c.checkpointNumber, stepsCompleted)];
    }
  }

  function SavedOf(saved: map<string, seq<Checkpoint>>, runId: string): seq<Checkpoint> {
    if runId in saved then saved[runId] else []
  }

  function Latest(checkpoints: seq<Checkpoint>): Option<Checkpoint> {
    if checkpoints == [] then None else Some(checkpoints[|checkpoints| - 1])
  }

  /** The checkpoints of each run, in the order in which they were saved. */
  class CheckpointRepository {
    var saved: map<string, seq<Checkpoint>>

    constructor ()
      ensures saved == map[]
    {
      saved := map[];
    }

    function Of(runId: string): seq<Checkpoint>
      reads this
    {
      SavedOf(saved, runId)
    }

    method FindLatest(runId: string) returns (c: Option<Checkpoint>)
      ensures c == Latest(Of(runId))
    {
      c := Latest(Of(runId));
    }

    method Save(c: Checkpoint)
      modifies this
      ensures saved == old(saved)[c.runId := old(Of(c.runId)) + [c]]
    {
      saved := saved[c.runId := Of(c.runId) + [c]];
    }
  }

  function IntervalOf(configured: int): (interval: int)
    ensures interval != 0
  {
    if configured != 0 then configured else DEFAULT_CHECKPOINT_INTERVAL
  }

  /** One report of completed steps, on the checkpoints of the run. */
  function Report(runId: string, configured: int, stepsTotal: int, checkpoints: seq<Checkpoint>, steps: int)
    : seq<Checkpoint>
  {
    if ShouldCheckpoint(steps, IntervalOf(configured)) then
      var number := if checkpoints == [] then 1 else checkpoints[|checkpoints| - 1].checkpointNumber + 1;
      checkpoints + [Checkpoint(runId, number, steps, stepsTotal, steps - 1)]
    else checkpoints
  }

  method MaybeCheckpoint(run: AgentRun, stepsCompleted: int, repository: CheckpointRepository)
    modifies run, repository
    ensures repository.Of(run.id)
         == Report(run.id, run.checkpointInterval, run.stepsTotal, old(repository.Of(run.id)), stepsCompleted)
    ensures forall other :: other != run.id ==> repository.Of(other) == old(repository.Of(other))
    ensures run.stepsCompleted == old(run.stepsCompleted)
    ensures if ShouldCheckpoint(stepsCompleted, IntervalOf(run.checkpointInterval))
            then run.checkpoint == Latest(repository.Of(run.id)) && run.checkpoint.Some?
                 && run.events == old(run.events)
                    + [CheckpointCreated(run.id, run.checkpoint.value.checkpointNumber, run.stepsCompleted)]
            else run.checkpoint == old(run.checkpoint) && run.events == old(run.events)
  {
    var interval := IntervalOf(run.checkpointInterval);
    if !ShouldCheckpoint(stepsCompleted, interval) {
      return;
    }
    var existing := repository.FindLatest(run.id);
    var nextNumber := if existing.Some? then existing.value.checkpointNumber + 1 else 1;
    var checkpoint := Checkpoint(run.id, nextNumber, stepsCompleted, run.stepsTotal, stepsCompleted - 1);
    repository.Save(checkpoint);
    run.SaveCheckpoint(checkpoint);
  }

  // ----- Whole runs -----

  /** The checkpoints after a list of reports, from none. */
  function Reports(runId: string, configured: int, stepsTotal: int, reports: seq<int>): seq<Checkpoint> {
    if reports == [] then []
    else
      var n := |reports| - 1;
      Report(runId, configured, stepsTotal, Reports(runId, configured, stepsTotal, reports[..n]), reports[n])
  }

  function Due(configured: int): int -> bool {
    steps => ShouldCheckpoint(steps, IntervalOf(configured))
  }

  /** Whatever is reported, in whatever order and however often (a resumed run reports
      steps again), there is one checkpoint for each report that is due, in order, and
      they are numbered from one without gaps or repetitions. */
  lemma {:induction false} NumbersAreConsecutive(runId: string, configured: int, stepsTotal: int, reports: seq<int>)
    ensures var cs, due := Reports(runId, configured, stepsTotal, reports), Filter(Due(configured), reports);
            && |cs| == |due|
            && forall i :: 0 <= i < |cs| ==> cs[i] == Checkpoint(runId, i + 1, due[i], stepsTotal, due[i] - 1)
  {
    if reports == [] {
    } else {
      NumbersAreConsecutive(runId, configured, stepsTotal, reports[..|reports| - 1]);
    }
  }

  /** The reports of a run that counts its steps one by one. */
  function Progress(n: nat): seq<int> {
    if n == 0 then [] else Progress(n - 1) + [n]
  }

  lemma StepQuotient(n: int, interval: int)
    requires interval > 0
    ensures n % interval == 0 ==> n / interval == (n - 1) / interval + 1 && n == n / interval * interval
    ensures n % interval != 0 ==> n / interval == (n - 1) / interval
  {
    var q, r := n / interval, n % interval;
    assert n == q * interval + r;
    if r == 0 {
      assert n - 1 == (q - 1) * interval + (interval - 1);
      DivisionUnique(n - 1, interval, q - 1, interval - 1);
    } else {
      DivisionUnique(n - 1, interval, q, r - 1);
    }
  }

  lemma {:induction false} DueSteps(configured: int, n: nat)
    ensures var due, period := Filter(Due(configured), Progress(n)), Period(IntervalOf(configured));
            |due| == n / period && forall i :: 0 <= i < |due| ==> due[i] == (i + 1) * period
  {
    var period := Period(IntervalOf(configured));
    if n == 0 {
      DivisionUnique(0, period, 0, 0);
    } else {
      DueSteps(configured, n - 1);
      assert Progress(n)[..|Progress(n)| - 1] == Progress(n - 1);
      DueExactly(n, IntervalOf(configured));
      StepQuotient(n, period);
    }
  }

  /** A run that reports each step once has a checkpoint at every multiple of the
      configured interval reached so far, in absolute value, or of five without one; and
      at no other step. */
  lemma ProgressiveRun(runId: string, configured: int, stepsTotal: int, n: nat, period: int)
    requires period == if configured == 0 then 5 else if configured > 0 then configured else -configured
    ensures var cs := Reports(runId, configured, stepsTotal, Progress(n));
            && |cs| == n / period
            && forall i :: 0 <= i < |cs| ==>
                 cs[i] == Checkpoint(runId, i + 1, (i + 1) * period, stepsTotal, (i + 1) * period - 1)
  {
    NumbersAreConsecutive(runId, configured, stepsTotal, Progress(n));
    DueSteps(configured, n);
  }
}
