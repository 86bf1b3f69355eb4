/** The pass/fail summary of a run
    (backend/app/analytics/services/experiment_analytics.py), before display
    rounding. */
module PassFail {
  import opened Wrappers
  import opened Collections
  import opened Grouping
  import opened RunRows
  import opened Sorting
  import opened Text

  datatype Verdict = Verdict(average: real, threshold: Option<real>, passed: bool, sampleCount: nat)

  datatype Summary = Summary(
    names: seq<string>, metrics: map<string, Verdict>, overallPass: bool, passedMetrics: nat, failedMetrics: nat)

  function NameOf(r: MetricRow): string { r.metricName }
  function ScoreOf(r: MetricRow): real { r.score }
  predicate Measured(r: MetricRow) { r.error.None? }

  function AddScore(scores: seq<real>, r: MetricRow): seq<real> {
    scores + [r.score]
  }

  function Average(rows: seq<MetricRow>): real {
    if rows == [] then 0.0 else SumReal(ScoreOf, rows) / |rows| as real
  }

  /** A metric fails when it has a threshold and its rows average less. */
  predicate Fails(thresholds: map<string, real>, rows: seq<MetricRow>, name: string) {
    name in thresholds && Average(Group(NameOf, rows, name)) < thresholds[name]
  }

  function VerdictOf(thresholds: map<string, real>, rows: seq<MetricRow>, name: string): Verdict {
    Verdict(Average(Group(NameOf, rows, name)), if name in thresholds then Some(thresholds[name]) else None,
            !Fails(thresholds, rows, name), |Group(NameOf, rows, name)|)
  }

  lemma {:induction false} ScoresOfGroup(rows: seq<MetricRow>)
    ensures |Fold(AddScore, [], rows)| == |rows|
    ensures SumReal(Identity, Fold(AddScore, [], rows)) == SumReal(ScoreOf, rows)
    ensures Mean(Fold(AddScore, [], rows)) == Average(rows)
  {
    if rows == [] {
    } else {
      var n := |rows| - 1;
      ScoresOfGroup(rows[..n]);
      var before := Fold(AddScore, [], rows[..n]);
      assert (before + [rows[n].score])[..|before|] == before;
    }
  }

  ghost predicate NoneFails(thresholds: map<string, real>, rows: seq<MetricRow>, names: seq<string>) {
    forall name :: name in names ==> !Fails(thresholds, rows, name)
  }

  lemma NamesAreMeasured(results: seq<MetricRow>)
    ensures forall name :: name in Keys(NameOf, Filter(Measured, results)) <==>
              exists r :: r in results && r.error.None? && r.metricName == name
  {
    KeysDistinct(NameOf, Filter(Measured, results));
    FilterMembers(Measured, results);
  }

  /** The verdict on one list of scores. */
  function Judge(thresholds: map<string, real>): (string, seq<real>) -> Verdict {
    (name, scores) =>
      var threshold := if name in thresholds then Some(thresholds[name]) else None;
      Verdict(Mean(scores), threshold, if threshold.Some? then Mean(scores) >= threshold.value else true, |scores|)
  }

  lemma JudgesGroup(thresholds: map<string, real>, rows: seq<MetricRow>, name: string)
    ensures Judge(thresholds)(name, Fold(AddScore, [], Group(NameOf, rows, name))) == VerdictOf(thresholds, rows, name)
  {
    ScoresOfGroup(Group(NameOf, rows, name));
  }

  function Rejects(judge: (string, seq<real>) -> Verdict, data: map<string, seq<real>>): string -> bool {
    name => name in data && !judge(name, data[name]).passed
  }

  function FailsBy(thresholds: map<string, real>, rows: seq<MetricRow>): string -> bool {
    name => Fails(thresholds, rows, name)
  }

  lemma ElementsSnoc(names: seq<string>, name: string)
    ensures Elements(names + [name]) == Elements(names) + {name}
  {
  }

  /** The loop over the groups. */
  method JudgeAll(judge: (string, seq<real>) -> Verdict, names: seq<string>, data: map<string, seq<real>>,
                  ghost rejects: string -> bool)
    returns (s: Summary)
    requires forall name :: name in names ==> name in data && rejects(name) == !judge(name, data[name]).passed
    ensures s.names == names && s.metrics.Keys == Elements(names)
    ensures forall name :: name in names ==> s.metrics[name] == judge(name, data[name])
    ensures s.passedMetrics + s.failedMetrics == |names|
    ensures s.failedMetrics == |Filter(rejects, names)|
    ensures s.overallPass <==> s.failedMetrics == 0
  {
    var metrics: map<string, Verdict> := map[];
    var passed, failed, overall := 0, 0, true;
    for i := 0 to |names|
      invariant metrics.Keys == Elements(names[..i])
      invariant forall name :: name in metrics ==> name in data && metrics[name] == judge(name, data[name])
      invariant passed + failed == i
      invariant failed == |Filter(rejects, names[..i])|
      invariant overall <==> failed == 0
    {
      var name := names[i];
      assert names[..i + 1] == names[..i] + [name];
      FilterSnoc(rejects, names[..i], name);
      ElementsSnoc(names[..i], name);
      var v := judge(name, data[name]);
      metrics := metrics[name := v];
      if v.passed {
        passed := passed + 1;
      } else {
        failed := failed + 1;
        overall := false;
      }
    }
    assert names[..|names|] == names;
    s := Summary(names, metrics, overall, passed, failed);
  }

  lemma JudgedExactly(thresholds: map<string, real>, rows: seq<MetricRow>, names: seq<string>,
                      data: map<string, seq<real>>)
    requires Holds(NameOf, AddScore, [], rows, names, data)
    ensures forall name :: name in names ==> Judge(thresholds)(name, data[name]) == VerdictOf(thresholds, rows, name)
    ensures Filter(Rejects(Judge(thresholds), data), names) == Filter(FailsBy(thresholds, rows), names)
  {
    forall name | name in names ensures Judge(thresholds)(name, data[name]) == VerdictOf(thresholds, rows, name) {
      JudgesGroup(thresholds, rows, name);
    }
    FilterSame(Rejects(Judge(thresholds), data), FailsBy(thresholds, rows), names);
  }

  lemma NoneFailsExactly(thresholds: map<string, real>, rows: seq<MetricRow>, names: seq<string>)
    ensures |Filter(FailsBy(thresholds, rows), names)| == 0 <==> NoneFails(thresholds, rows, names)
  {
    var failing := Filter(FailsBy(thresholds, rows), names);
    FilterMembers(FailsBy(thresholds, rows), names);
    assert failing != [] ==> failing[0] in failing;
  }

  /** The verdict on the rows of a metric: their number and average, the threshold if
      there is one, and a pass exactly when the average reaches it. */
  ghost predicate Judges(v: Verdict, group: seq<MetricRow>, threshold: Option<real>) {
    && v.sampleCount == |group| > 0 && v.average == SumReal(ScoreOf, group) / |group| as real
    && v.threshold == threshold && (v.passed <==> (threshold.Some? ==> v.average >= threshold.value))
  }

  /** The threshold of a metric, if it has one. */
  function ThresholdOf(thresholds: map<string, real>, name: string): Option<real> {
    if name in thresholds then Some(thresholds[name]) else None
  }

  lemma VerdictJudges(thresholds: map<string, real>, rows: seq<MetricRow>, name: string)
    requires name in Keys(NameOf, rows)
    ensures Judges(VerdictOf(thresholds, rows, name), Group(NameOf, rows, name), ThresholdOf(thresholds, name))
  {
    KeysDistinct(NameOf, rows);
  }

  lemma OverallPass(thresholds: map<string, real>, rows: seq<MetricRow>, s: Summary)
    requires s.metrics.Keys == Elements(Keys(NameOf, rows))
    requires forall name :: name in s.metrics ==> s.metrics[name] == VerdictOf(thresholds, rows, name)
    ensures NoneFails(thresholds, rows, Keys(NameOf, rows)) <==>
              forall name :: name in s.metrics ==> s.metrics[name].passed
    ensures forall name :: name in s.metrics ==>
              Judges(s.metrics[name], Group(NameOf, rows, name), ThresholdOf(thresholds, name))
  {
    assert forall name :: name in s.metrics <==> name in Keys(NameOf, rows);
    forall name | name in s.metrics
      ensures Judges(s.metrics[name], Group(NameOf, rows, name), ThresholdOf(thresholds, name))
    {
      VerdictJudges(thresholds, rows, name);
    }
  }

  /** A metric is in the summary exactly when some row without an error carries it;
      its verdict averages those rows, and it passes exactly when it has no threshold or
      averages at least that.  The run passes exactly when every metric does, and every
      metric is counted once, as passed or as failed. */
  method GetSummary(results: seq<MetricRow>, thresholds: map<string, real>) returns (s: Summary)
    ensures var rows := Filter(Measured, results);
            && s.names == Keys(NameOf, rows)
            && (forall name :: name in s.metrics.Keys <==>
                  exists r :: r in results && r.error.None? && r.metricName == name)
            && (forall name :: name in s.metrics ==>
                  Judges(s.metrics[name], Group(NameOf, rows, name), ThresholdOf(thresholds, name)))
            && s.passedMetrics + s.failedMetrics == |s.names|
            && s.failedMetrics == |Filter(FailsBy(thresholds, rows), s.names)|
            && (s.overallPass <==> s.failedMetrics == 0)
            && (s.overallPass <==> forall name :: name in s.metrics ==> s.metrics[name].passed)
  {
    var rows := Filter(Measured, results);
    var names, data := FoldBy(NameOf, AddScore, [], rows);
    s := JudgeAll(Judge(thresholds), names, data, Rejects(Judge(thresholds), data));
    JudgedExactly(thresholds, rows, names, data);
    NoneFailsExactly(thresholds, rows, names);
    NamesAreMeasured(results);
    OverallPass(thresholds, rows, s);
  }
}
