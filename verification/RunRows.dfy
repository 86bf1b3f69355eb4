/** The columns of finished runs and of their metric results that the analytics
    services read, and the averages they take over a group of runs. */
module RunRows {
  import opened Wrappers
  import opened Collections

  datatype RunRow = RunRow(
    model: string, provider: string, averageLatencyMs: int, cost: real, itemsTotal: nat, itemsCompleted: nat)

  datatype MetricRow = MetricRow(metricName: string, score: real, error: Option<string>)

  function ModelOf(r: RunRow): string { r.model }
  function ProviderOf(r: RunRow): string { r.provider }
  function CostOf(r: RunRow): real { r.cost }
  function TotalOf(r: RunRow): int { r.itemsTotal }
  function CompletedOf(r: RunRow): int { r.itemsCompleted }
  function One(r: RunRow): real { 1.0 }

  /** A run without a latency does not count towards averages. */
  function LatencyOf(r: RunRow): seq<int> {
    if r.averageLatencyMs > 0 then [r.averageLatencyMs] else []
  }

  /** The provider of the last run, which is the one a dictionary keeps. */
  function LastProvider(rows: seq<RunRow>): string {
    if rows == [] then "" else rows[|rows| - 1].provider
  }

  function AverageInt(xs: seq<int>): real {
    if xs == [] then 0.0 else Sum(Identity, xs) as real / |xs| as real
  }

  function AverageCost(rows: seq<RunRow>): real {
    if rows == [] then 0.0 else SumReal(CostOf, rows) / |rows| as real
  }

  function AverageLatency(rows: seq<RunRow>): real {
    AverageInt(FlatMap(LatencyOf, rows))
  }

  /** Completed items, in per cent. */
  function CompletionScore(rows: seq<RunRow>): real {
    var total := Sum(TotalOf, rows);
    if total > 0 then Sum(CompletedOf, rows) as real / total as real * 100.0 else 0.0
  }

  lemma {:induction false} SumsNonNegative(rows: seq<RunRow>)
    ensures Sum(TotalOf, rows) >= 0 && Sum(CompletedOf, rows) >= 0
    ensures forall l :: l in FlatMap(LatencyOf, rows) ==> l > 0
  {
    if rows == [] {
    } else {
      SumsNonNegative(rows[..|rows| - 1]);
    }
  }

  lemma ScoreNonNegative(rows: seq<RunRow>)
    ensures CompletionScore(rows) >= 0.0
  {
    SumsNonNegative(rows);
  }

  lemma {:induction false} PositiveSum(xs: seq<int>)
    requires forall x :: x in xs ==> x > 0
    ensures xs != [] ==> Sum(Identity, xs) > 0
  {
    if xs == [] {
    } else {
      var n := |xs| - 1;
      assert forall x :: x in xs[..n] ==> x in xs;
      assert xs[n] in xs;
      PositiveSum(xs[..n]);
    }
  }

  lemma {:induction false} LatenciesEmpty(rows: seq<RunRow>)
    ensures FlatMap(LatencyOf, rows) == [] <==> forall r :: r in rows ==> r.averageLatencyMs <= 0
  {
    if rows == [] {
    } else {
      LatenciesEmpty(rows[..|rows| - 1]);
      assert forall r :: r in rows <==> r in rows[..|rows| - 1] || r == rows[|rows| - 1];
    }
  }

  /** The average latency of a group is zero exactly when no run has a latency. */
  lemma AverageLatencyZero(rows: seq<RunRow>)
    ensures AverageLatency(rows) >= 0.0
    ensures AverageLatency(rows) == 0.0 <==> forall r :: r in rows ==> r.averageLatencyMs <= 0
  {
    SumsNonNegative(rows);
    var ls := FlatMap(LatencyOf, rows);
    PositiveSum(ls);
    LatenciesEmpty(rows);
    if ls != [] {
      assert AverageInt(ls) * |ls| as real == Sum(Identity, ls) as real;
    }
  }

  /** With items, the score is zero exactly when none is completed and a hundred exactly
      when as many are as there are, and it grows with the completed ones. */
  lemma CompletionScoreExactly(rows: seq<RunRow>)
    ensures var total, completed, score := Sum(TotalOf, rows), Sum(CompletedOf, rows), CompletionScore(rows);
            && (total == 0 ==> score == 0.0)
            && (total > 0 ==> score * total as real == 100.0 * completed as real
                              && (score == 0.0 <==> completed == 0) && (score == 100.0 <==> completed == total))
  {
    SumsNonNegative(rows);
    var total, completed := Sum(TotalOf, rows), Sum(CompletedOf, rows);
    if total > 0 { Percentage(completed as real, total as real); }
  }

  lemma Percentage(part: real, whole: real)
    requires whole > 0.0
    ensures var share := part / whole * 100.0;
            share * whole == 100.0 * part && (share == 0.0 <==> part == 0.0) && (share == 100.0 <==> part == whole)
  {
    var q := part / whole;
    assert q * whole == part;
    assert q * 100.0 * whole == 100.0 * (q * whole);
  }

  lemma {:induction false} CountsRows(rows: seq<RunRow>)
    ensures SumReal(One, rows) == |rows| as real
  {
    if rows == [] {
    } else {
      CountsRows(rows[..|rows| - 1]);
    }
  }
}
