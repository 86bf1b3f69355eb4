/** Latency percentiles and group averages
    (backend/app/analytics/services/latency_service.py), with exact indices.  Values
    are exact; `round` is the rounding that averages are displayed with and sorted
    by. */
module Latency {
  import opened Collections
  import opened Grouping
  import opened Sorting
  import opened RunRows

  datatype Analysis = Analysis(
    average: real, median: int, p50: int, p95: int, p99: int, minimum: int, maximum: int)

  const NO_ANALYSIS := Analysis(0.0, 0, 0, 0, 0, 0, 0)

  function AsReal(x: int): real { x as real }

  /** `min(int(count * p / 100), count - 1)` */
  function PercentileIndex(n: nat, p: nat): nat
    requires n > 0
  {
    if n * p / 100 < n - 1 then n * p / 100 else n - 1
  }

  function LessThan(v: int): int -> bool { x => x < v }
  function NoMoreThan(v: int): int -> bool { x => x <= v }

  /** How many values are below `v`, and how many are at most `v`. */
  function Below(v: int, xs: seq<int>): nat { |Filter(LessThan(v), xs)| }
  function AtMost(v: int, xs: seq<int>): nat { |Filter(NoMoreThan(v), xs)| }

  /** The rank guarantee of a percentile: more than `p` per cent of the values are
      at most `v`, and no more than `p` per cent are below it. */
  ghost predicate IsPercentile(v: int, p: nat, xs: seq<int>) {
    v in xs && AtMost(v, xs) * 100 > |xs| * p && Below(v, xs) * 100 <= |xs| * p
  }

  ghost predicate Analyses(a: Analysis, xs: seq<int>) {
    && IsPercentile(a.p50, 50, xs) && IsPercentile(a.p95, 95, xs) && IsPercentile(a.p99, 99, xs)
    && a.median == a.p50
    && a.minimum in xs && a.maximum in xs && (forall x :: x in xs ==> a.minimum <= x <= a.maximum)
    && a.p50 <= a.p95 <= a.p99
    && a.average == AverageInt(xs) && a.minimum as real <= a.average <= a.maximum as real
  }

  // ----- Ranks in a sorted list -----

  ghost predicate Increasing(s: seq<int>) {
    forall i, j :: 0 <= i < j < |s| ==> s[i] <= s[j]
  }

  lemma SortedIncreases(xs: seq<int>)
    ensures var s := SortBy(AsReal, xs);
            Increasing(s) && |s| == |xs| && multiset(s) == multiset(xs) && forall x :: x in xs <==> x in s
  {
    var s := SortBy(AsReal, xs);
    SortSorts(AsReal, xs);
    SortKeepsMembers(AsReal, xs);
    forall i, j | 0 <= i < j < |s| ensures s[i] <= s[j] {
      assert AsReal(s[i]) <= AsReal(s[j]);
    }
  }

  lemma BelowAt(s: seq<int>, k: nat)
    requires Increasing(s) && k < |s|
    ensures Below(s[k], s) <= k
  {
    var p := LessThan(s[k]);
    FilterConcat(p, s[..k], s[k..]);
    assert s[..k] + s[k..] == s;
    FilterExtremes(p, s[..k]);
    forall x | x in s[k..] ensures !p(x) {
      var i :| 0 <= i < |s[k..]| && s[k..][i] == x;
    }
    FilterExtremes(p, s[k..]);
  }

  lemma AtMostAt(s: seq<int>, k: nat)
    requires Increasing(s) && k < |s|
    ensures AtMost(s[k], s) >= k + 1
  {
    var p := NoMoreThan(s[k]);
    FilterConcat(p, s[..k + 1], s[k + 1..]);
    assert s[..k + 1] + s[k + 1..] == s;
    FilterExtremes(p, s[..k + 1]);
  }

  lemma IndexArithmetic(n: nat, p: nat)
    requires n > 0 && p < 100
    ensures PercentileIndex(n, p) == n * p / 100 < n
    ensures PercentileIndex(n, p) * 100 <= n * p < (PercentileIndex(n, p) + 1) * 100
  {
    assert n * p <= n * 99;
  }

  /** The value at a percentile's index is that percentile, for any percentage
      below a hundred; there the minimum with the last index never takes effect. */
  lemma PercentileRank(xs: seq<int>, p: nat)
    requires xs != [] && p < 100
    ensures |SortBy(AsReal, xs)| == |xs| && PercentileIndex(|xs|, p) == |xs| * p / 100 < |xs|
    ensures IsPercentile(SortBy(AsReal, xs)[PercentileIndex(|xs|, p)], p, xs)
  {
    IndexArithmetic(|xs|, p);
    SortedIncreases(xs);
    var s, k := SortBy(AsReal, xs), PercentileIndex(|xs|, p);
    var v := s[k];
    BelowAt(s, k);
    AtMostAt(s, k);
    CountPermutation(LessThan(v), s, xs);
    CountPermutation(NoMoreThan(v), s, xs);
  }

  lemma {:induction false} SumBetween(xs: seq<int>, low: int, high: int)
    requires forall x :: x in xs ==> low <= x <= high
    ensures |xs| * low <= Sum(Identity, xs) <= |xs| * high
  {
    if xs == [] {
    } else {
      var n := |xs| - 1;
      assert forall x :: x in xs[..n] ==> x in xs;
      SumBetween(xs[..n], low, high);
      assert xs[n] in xs;
      assert |xs| * low == n * low + low && |xs| * high == n * high + high;
    }
  }

  lemma AverageBetween(xs: seq<int>, low: int, high: int)
    requires xs != [] && forall x :: x in xs ==> low <= x <= high
    ensures low as real <= AverageInt(xs) <= high as real
  {
    SumBetween(xs, low, high);
    var n, total := |xs| as real, Sum(Identity, xs) as real;
    assert n * low as real <= total <= n * high as real;
    assert AverageInt(xs) * n == total;
  }

  lemma AverageSorted(xs: seq<int>, sorted: seq<int>)
    requires multiset(xs) == multiset(sorted)
    ensures AverageInt(sorted) == AverageInt(xs)
  {
    SumPermutation(Identity, sorted, xs);
    assert |multiset(xs)| == |xs| && |multiset(sorted)| == |sorted|;
  }

  lemma IndicesInOrder(n: nat)
    requires n > 0
    ensures n / 2 == PercentileIndex(n, 50) <= PercentileIndex(n, 95) <= PercentileIndex(n, 99) < n
  {
  }

  method Analyse(latencies: seq<int>) returns (a: Analysis)
    requires latencies != []
    ensures Analyses(a, latencies)
  {
    var sorted := SortBy(AsReal, latencies);
    SortedIncreases(latencies);
    var count := |sorted|;
    PercentileRank(latencies, 50);
    PercentileRank(latencies, 95);
    PercentileRank(latencies, 99);
    var i50, i95, i99 := PercentileIndex(count, 50), PercentileIndex(count, 95), PercentileIndex(count, 99);
    forall x | x in latencies ensures sorted[0] <= x <= sorted[count - 1] {
      var i :| 0 <= i < count && sorted[i] == x;
    }
    AverageSorted(latencies, sorted);
    AverageBetween(latencies, sorted[0], sorted[count - 1]);
    IndicesInOrder(count);
    var average := AverageInt(sorted);
    a := Analysis(average, sorted[count / 2], sorted[i50], sorted[i95], sorted[i99], sorted[0], sorted[count - 1]);
  }

  // ----- By provider and by model -----

  datatype LatencyEntry = LatencyEntry(name: string, provider: string, average: real, runCount: nat)

  datatype Samples = Samples(latencies: seq<int>, provider: string)

  const NO_SAMPLES := Samples([], "")

  predicate Measured(r: RunRow) { r.averageLatencyMs > 0 }
  function CountOf(e: LatencyEntry): real { e.runCount as real }

  function AddSample(t: Samples, run: RunRow): Samples {
    Samples(t.latencies + LatencyOf(run), run.provider)
  }

  function EntryOf(name: string, t: Samples): LatencyEntry {
    LatencyEntry(name, t.provider, AverageInt(t.latencies), |t.latencies|)
  }

  function EntriesOf(key: RunRow -> string, rows: seq<RunRow>, names: seq<string>): (entries: seq<LatencyEntry>)
    ensures |entries| == |names|
    ensures forall i :: 0 <= i < |names| ==>
              entries[i] == EntryOf(names[i], Fold(AddSample, NO_SAMPLES, Group(key, rows, names[i])))
  {
    Map((name: string) => EntryOf(name, Fold(AddSample, NO_SAMPLES, Group(key, rows, name))), names)
  }

  /** The displayed average, which the entries are sorted by. */
  function Displayed(round: real -> real): LatencyEntry -> real {
    (e: LatencyEntry) => round(e.average)
  }

  function GroupLatencies(key: RunRow -> string, rows: seq<RunRow>, round: real -> real): seq<LatencyEntry> {
    var measured := Filter(Measured, rows);
    SortBy(Displayed(round), EntriesOf(key, measured, Keys(key, measured)))
  }

  method BuildEntries(ghost key: RunRow -> string, ghost rows: seq<RunRow>, names: seq<string>,
                      data: map<string, Samples>)
    returns (result: seq<LatencyEntry>)
    requires forall k :: k in names ==> k in data && data[k] == Fold(AddSample, NO_SAMPLES, Group(key, rows, k))
    ensures result == EntriesOf(key, rows, names)
  {
    result := [];
    for i := 0 to |names|
      invariant |result| == i
      invariant forall k :: 0 <= k < i ==>
                  result[k] == EntryOf(names[k], Fold(AddSample, NO_SAMPLES, Group(key, rows, names[k])))
    {
      result := result + [EntryOf(names[i], data[names[i]])];
    }
  }

  /** The entries of the providers or of the models, fastest first. */
  method ComputeLatencies(key: RunRow -> string, rows: seq<RunRow>, round: real -> real)
    returns (result: seq<LatencyEntry>)
    ensures result == GroupLatencies(key, rows, round)
  {
    var measured: seq<RunRow> := [];
    for i := 0 to |rows|
      invariant measured == Filter(Measured, rows[..i])
    {
      TakeSnoc(rows, i);
      FilterSnoc(Measured, rows[..i], rows[i]);
      if rows[i].averageLatencyMs > 0 {
        measured := measured + [rows[i]];
      }
    }
    TakeAll(rows);
    var names, data := FoldBy(key, AddSample, NO_SAMPLES, measured);
    result := BuildEntries(key, measured, names, data);
    result := SortBy(Displayed(round), result);
  }

  lemma {:induction false} SamplesOfGroup(rows: seq<RunRow>)
    ensures Fold(AddSample, NO_SAMPLES, rows) == Samples(FlatMap(LatencyOf, rows), LastProvider(rows))
  {
    if rows == [] {
    } else {
      SamplesOfGroup(rows[..|rows| - 1]);
    }
  }

  lemma LatenciesSnoc(rows: seq<RunRow>, row: RunRow)
    ensures FlatMap(LatencyOf, rows + [row])
         == if Measured(row) then FlatMap(LatencyOf, rows) + [row.averageLatencyMs] else FlatMap(LatencyOf, rows)
  {
    assert (rows + [row])[..|rows|] == rows;
    assert FlatMap(LatencyOf, rows) + [] == FlatMap(LatencyOf, rows);
  }

  /** Runs without a latency play no part in a group. */
  lemma {:induction false} GroupOfMeasured(key: RunRow -> string, rows: seq<RunRow>, k: string)
    ensures FlatMap(LatencyOf, Group(key, Filter(Measured, rows), k)) == FlatMap(LatencyOf, Group(key, rows, k))
    ensures |FlatMap(LatencyOf, Group(key, Filter(Measured, rows), k))| == |Group(key, Filter(Measured, rows), k)|
  {
    if rows == [] {
    } else {
      var n := |rows| - 1;
      var row, before := rows[n], Filter(Measured, rows[..n]);
      GroupOfMeasured(key, rows[..n], k);
      GroupSnoc(key, rows[..n], row, k);
      GroupSnoc(key, before, row, k);
      assert rows[..n] + [row] == rows && before + [] == before;
      LatenciesSnoc(Group(key, rows[..n], k), row);
      LatenciesSnoc(Group(key, before, k), row);
    }
  }

  /** An entry has the average and the number of the latencies of its group. */
  lemma EntryDescribes(key: RunRow -> string, rows: seq<RunRow>, name: string)
    ensures var group, measured := Group(key, rows, name), Group(key, Filter(Measured, rows), name);
            EntryOf(name, Fold(AddSample, NO_SAMPLES, measured))
            == LatencyEntry(name, LastProvider(measured), AverageLatency(group), |FlatMap(LatencyOf, group)|)
  {
    SamplesOfGroup(Group(key, Filter(Measured, rows), name));
    GroupOfMeasured(key, rows, name);
  }

  lemma EntriesSnoc(key: RunRow -> string, measured: seq<RunRow>, names: seq<string>, name: string)
    ensures EntriesOf(key, measured, names + [name])
         == EntriesOf(key, measured, names)
          + [EntryOf(name, Fold(AddSample, NO_SAMPLES, Group(key, measured, name)))]
  {
  }

  lemma CountsSnoc(entries: seq<LatencyEntry>, e: LatencyEntry)
    ensures SumReal(CountOf, entries + [e]) == SumReal(CountOf, entries) + e.runCount as real
  {
    assert (entries + [e])[..|entries|] == entries;
  }

  lemma {:induction false} EntriesCount(key: RunRow -> string, rows: seq<RunRow>, names: seq<string>)
    ensures var measured := Filter(Measured, rows);
            SumReal(CountOf, EntriesOf(key, measured, names)) == GroupsTotal(One, key, measured, names)
  {
    if names == [] {
    } else {
      var n, measured := |names| - 1, Filter(Measured, rows);
      TakeSnoc(names, n);
      TakeAll(names);
      EntriesCount(key, rows, names[..n]);
      SamplesOfGroup(Group(key, measured, names[n]));
      GroupOfMeasured(key, rows, names[n]);
      CountsRows(Group(key, measured, names[n]));
      EntriesSnoc(key, measured, names[..n], names[n]);
      CountsSnoc(EntriesOf(key, measured, names[..n]),
                 EntryOf(names[n], Fold(AddSample, NO_SAMPLES, Group(key, measured, names[n]))));
    }
  }

  lemma MeasuredAverage(key: RunRow -> string, rows: seq<RunRow>, name: string)
    requires name in Keys(key, Filter(Measured, rows))
    ensures AverageLatency(Group(key, rows, name)) > 0.0
  {
    KeysDistinct(key, Filter(Measured, rows));
    KeysDistinct(key, rows);
    FilterMembers(Measured, rows);
    AverageLatencyZero(Group(key, rows, name));
  }

  /** An entry is that of the runs with its name. */
  ghost predicate Describes(key: RunRow -> string, rows: seq<RunRow>, e: LatencyEntry) {
    var group := Group(key, rows, e.name);
    && e.average == AverageLatency(group) && e.average > 0.0
    && e.runCount == |FlatMap(LatencyOf, group)|
    && e.provider == LastProvider(Group(key, Filter(Measured, rows), e.name))
  }

  lemma EntriesDescribe(key: RunRow -> string, rows: seq<RunRow>)
    ensures var measured := Filter(Measured, rows);
            forall e :: e in EntriesOf(key, measured, Keys(key, measured)) ==> Describes(key, rows, e)
  {
    var measured := Filter(Measured, rows);
    var names := Keys(key, measured);
    forall i | 0 <= i < |names| ensures Describes(key, rows, EntriesOf(key, measured, names)[i]) {
      EntryDescribes(key, rows, names[i]);
      MeasuredAverage(key, rows, names[i]);
    }
  }

  ghost predicate Named(entries: seq<LatencyEntry>, name: string) {
    exists e :: e in entries && e.name == name
  }

  ghost predicate HasLatency(key: RunRow -> string, rows: seq<RunRow>, name: string) {
    exists r :: r in rows && Measured(r) && key(r) == name
  }

  lemma EntriesNamed(key: RunRow -> string, rows: seq<RunRow>, name: string)
    ensures var measured := Filter(Measured, rows);
            Named(EntriesOf(key, measured, Keys(key, measured)), name) <==> HasLatency(key, rows, name)
  {
    var measured := Filter(Measured, rows);
    var names := Keys(key, measured);
    var entries := EntriesOf(key, measured, names);
    KeysDistinct(key, measured);
    FilterMembers(Measured, rows);
    assert forall e :: e in entries ==> e.name in names;
    if name in names {
      var i :| 0 <= i < |names| && names[i] == name;
      assert entries[i] in entries;
    }
  }

  lemma EntriesConserve(key: RunRow -> string, rows: seq<RunRow>)
    ensures var measured := Filter(Measured, rows);
            SumReal(CountOf, EntriesOf(key, measured, Keys(key, measured))) == |measured| as real
  {
    var measured := Filter(Measured, rows);
    EntriesCount(key, rows, Keys(key, measured));
    KeysDistinct(key, measured);
    GroupsConserve(One, key, measured, Keys(key, measured));
    CountsRows(measured);
  }

  /** A name that occurs with a latency has one entry, with the average latency of
      its runs and their number; every run with a latency is counted once, and faster
      entries, as displayed, come first. */
  lemma LatenciesGrouped(key: RunRow -> string, rows: seq<RunRow>, round: real -> real)
    ensures var entries := GroupLatencies(key, rows, round);
            && |entries| == |Keys(key, Filter(Measured, rows))|
            && (forall e :: e in entries ==> Describes(key, rows, e))
            && (forall name :: Named(entries, name) <==> HasLatency(key, rows, name))
            && SumReal(CountOf, entries) == |Filter(Measured, rows)| as real
            && forall i, j :: 0 <= i < j < |entries| ==> round(entries[i].average) <= round(entries[j].average)
  {
    var f, measured := Displayed(round), Filter(Measured, rows);
    var names := Keys(key, measured);
    var unsorted := EntriesOf(key, measured, names);
    EntriesDescribe(key, rows);
    forall name ensures Named(unsorted, name) <==> HasLatency(key, rows, name) { EntriesNamed(key, rows, name); }
    EntriesConserve(key, rows);
    SortSum(f, unsorted, CountOf);
    SortSorts(f, unsorted);
    SortKeepsMembers(f, unsorted);
  }

  /** The percentiles are true ranks, and lie in order between the extremes; the
      groups are those of the runs with a latency.  Without any the analysis is empty. */
  method GetAnalysis(rows: seq<RunRow>, round: real -> real)
    returns (a: Analysis, byProvider: seq<LatencyEntry>, byModel: seq<LatencyEntry>)
    ensures var latencies := FlatMap(LatencyOf, rows);
            if latencies == [] then a == NO_ANALYSIS && byProvider == byModel == []
            else
              && Analyses(a, latencies)
              && byProvider == GroupLatencies(ProviderOf, rows, round)
              && byModel == GroupLatencies(ModelOf, rows, round)
  {
    var latencies: seq<int> := [];
    for i := 0 to |rows|
      invariant latencies == FlatMap(LatencyOf, rows[..i])
    {
      assert rows[..i + 1][..i] == rows[..i];
      latencies := latencies + LatencyOf(rows[i]);
    }
    TakeAll(rows);
    if latencies == [] {
      return NO_ANALYSIS, [], [];
    }
    a := Analyse(latencies);
    byProvider := ComputeLatencies(ProviderOf, rows, round);
    byModel := ComputeLatencies(ModelOf, rows, round);
  }
}
