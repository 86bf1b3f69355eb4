/** The leaderboard: accumulate per model, sort, cut and rank
    (backend/app/analytics/services/leaderboard_service.py).  `round` is the
    rounding applied to scores before they are sorted. */
module Leaderboard {
  import opened Collections
  import opened Grouping
  import opened Sorting
  import opened RunRows

  datatype Accumulator = Accumulator(
    latencies: seq<int>, costs: seq<real>, total: int, completed: int, provider: string)

  const NO_RUNS := Accumulator([], [], 0, 0, "")

  function Accumulate(data: Accumulator, run: RunRow): Accumulator {
    Accumulator(data.latencies + LatencyOf(run), data.costs + [run.cost], data.total + run.itemsTotal,
                data.completed + run.itemsCompleted, run.provider)
  }

  function Accumulated(rows: seq<RunRow>): Accumulator {
    Fold(Accumulate, NO_RUNS, rows)
  }

  function SortValue(rankingBy: string, data: Accumulator): real {
    if rankingBy == "latency" then AverageInt(data.latencies)
    else if rankingBy == "cost" then Mean(data.costs)
    else if data.total > 0 then data.completed as real / data.total as real * 100.0 else 0.0
  }

  /** The value a model is ranked by, from its runs. */
  function ValueOf(rankingBy: string, rows: seq<RunRow>): real {
    if rankingBy == "latency" then AverageLatency(rows)
    else if rankingBy == "cost" then AverageCost(rows)
    else CompletionScore(rows)
  }

  lemma {:induction false} AccumulatedSums(rows: seq<RunRow>)
    ensures var data := Accumulated(rows);
            && data.latencies == FlatMap(LatencyOf, rows)
            && |data.costs| == |rows| && SumReal(Identity, data.costs) == SumReal(CostOf, rows)
            && data.total == Sum(TotalOf, rows) && data.completed == Sum(CompletedOf, rows)
            && data.provider == LastProvider(rows)
  {
    if rows == [] {
    } else {
      var n := |rows| - 1;
      AccumulatedSums(rows[..n]);
      var costs := Accumulated(rows).costs;
      assert costs[..n] == Accumulated(rows[..n]).costs;
    }
  }

  /** The accumulators compute the averages of the model's runs. */
  lemma SortValueIsValue(rankingBy: string, rows: seq<RunRow>)
    ensures SortValue(rankingBy, Accumulated(rows)) == ValueOf(rankingBy, rows)
  {
    AccumulatedSums(rows);
  }

  // ----- Sorting, cutting and ranking named entries -----

  datatype Entry = Entry(rank: int, model: string, score: real, metricName: string, provider: string)

  /** The length of `entries[:limit]`. */
  function Cut(n: nat, limit: int): nat {
    if limit < 0 then Max(0, n + limit) else if limit < n then limit else n
  }

  function Ranked(entries: seq<Entry>): (r: seq<Entry>)
    ensures |r| == |entries| && forall i :: 0 <= i < |r| ==> r[i] == entries[i].(rank := i + 1)
  {
    seq(|entries|, i requires 0 <= i < |entries| => entries[i].(rank := i + 1))
  }

  function Top(f: Entry -> real, entries: seq<Entry>, limit: int): (board: seq<Entry>)
    ensures |board| == Cut(|entries|, limit)
  {
    SortSorts(f, entries);
    Ranked(SortBy(f, entries)[..Cut(|entries|, limit)])
  }

  method SortAndRank(f: Entry -> real, entries: seq<Entry>, limit: int) returns (ranked: seq<Entry>)
    ensures ranked == Top(f, entries, limit)
  {
    SortSorts(f, entries);
    var sorted := SortBy(f, entries);
    var top := sorted[..Cut(|entries|, limit)];
    ranked := [];
    for i := 0 to |top|
      invariant ranked == Ranked(top[..i])
    {
      ranked := ranked + [top[i].(rank := i + 1)];
    }
    assert top[..|top|] == top;
  }

  /** Which entry the place `i` of the board came from. */
  lemma TopPlace(f: Entry -> real, entries: seq<Entry>, limit: int, i: nat)
    requires i < |Top(f, entries, limit)|
    ensures |SortBy(f, entries)| == |entries| && SortBy(f, entries)[i] in entries
    ensures Top(f, entries, limit)[i] == SortBy(f, entries)[i].(rank := i + 1)
  {
    SortSorts(f, entries);
    SortKeepsMembers(f, entries);
  }

  /** Entries of distinct models stay so, and come in order. */
  lemma TopPair(f: Entry -> real, entries: seq<Entry>, limit: int, i: nat, j: nat)
    requires i < j < |Top(f, entries, limit)|
    requires forall k, l :: 0 <= k < l < |entries| ==> entries[k].model != entries[l].model
    ensures |SortBy(f, entries)| == |entries|
    ensures Top(f, entries, limit)[i].model != Top(f, entries, limit)[j].model
    ensures f(SortBy(f, entries)[i]) <= f(SortBy(f, entries)[j])
  {
    var sorted := SortBy(f, entries);
    TopPlace(f, entries, limit, i);
    TopPlace(f, entries, limit, j);
    SortSorts(f, entries);
    DistinctPermutation(entries, sorted);
    var k :| 0 <= k < |entries| && entries[k] == sorted[i];
    var l :| 0 <= l < |entries| && entries[l] == sorted[j];
    assert k != l;
  }

  /** An entry whose model is not on the board is not ahead of one that is. */
  lemma TopExcludes(f: Entry -> real, entries: seq<Entry>, limit: int, i: nat, e: Entry)
    requires i < |Top(f, entries, limit)| && e in entries
    requires forall j :: 0 <= j < |Top(f, entries, limit)| ==> Top(f, entries, limit)[j].model != e.model
    ensures |SortBy(f, entries)| == |entries|
    ensures f(SortBy(f, entries)[i]) <= f(e)
  {
    var sorted := SortBy(f, entries);
    SortSorts(f, entries);
    SortKeepsMembers(f, entries);
    var t :| 0 <= t < |sorted| && sorted[t] == e;
    if t < |Top(f, entries, limit)| {
      TopPlace(f, entries, limit, t);
    }
  }

  // ----- The leaderboard -----

  function ScoreOf(e: Entry): real { e.score }

  /** The key for `reverse=True`, which keeps equal scores in order as well. */
  function NegatedScore(e: Entry): real { -e.score }

  predicate LowerIsBetter(rankingBy: string) {
    rankingBy == "latency" || rankingBy == "cost"
  }

  function OrderBy(rankingBy: string): Entry -> real {
    if LowerIsBetter(rankingBy) then ScoreOf else NegatedScore
  }

  predicate AtLeastAsGood(rankingBy: string, a: real, b: real) {
    if LowerIsBetter(rankingBy) then a <= b else a >= b
  }

  function EntryOf(score: Accumulator -> real, metric: string, model: string, data: Accumulator): Entry {
    Entry(0, model, score(data), metric, data.provider)
  }

  /** One entry for each model, in the order first seen. */
  function EntriesOf(score: Accumulator -> real, metric: string, rows: seq<RunRow>, models: seq<string>)
    : (entries: seq<Entry>)
    ensures |entries| == |models|
    ensures forall i :: 0 <= i < |models| ==>
              entries[i] == EntryOf(score, metric, models[i], Accumulated(Group(ModelOf, rows, models[i])))
  {
    Map((m: string) => EntryOf(score, metric, m, Accumulated(Group(ModelOf, rows, m))), models)
  }

  function RoundedValue(rankingBy: string, round: real -> real): Accumulator -> real {
    data => round(SortValue(rankingBy, data))
  }

  /** The score of a model: the rounded value of its runs. */
  function ModelScore(rankingBy: string, rows: seq<RunRow>, round: real -> real, model: string): real {
    round(ValueOf(rankingBy, Group(ModelOf, rows, model)))
  }

  function AllEntries(rankingBy: string, rows: seq<RunRow>, round: real -> real): seq<Entry> {
    EntriesOf(RoundedValue(rankingBy, round), rankingBy, rows, Keys(ModelOf, rows))
  }

  function Board(rankingBy: string, rows: seq<RunRow>, limit: int, round: real -> real): seq<Entry> {
    Top(OrderBy(rankingBy), AllEntries(rankingBy, rows, round), limit)
  }

  method BuildEntries(score: Accumulator -> real, metric: string, ghost rows: seq<RunRow>, models: seq<string>,
                      modelData: map<string, Accumulator>) returns (entries: seq<Entry>)
    requires forall m :: m in models ==> m in modelData && modelData[m] == Accumulated(Group(ModelOf, rows, m))
    ensures entries == EntriesOf(score, metric, rows, models)
  {
    entries := [];
    for i := 0 to |models|
      invariant |entries| == i
      invariant forall k :: 0 <= k < i ==>
        entries[k] == EntryOf(score, metric, models[k], Accumulated(Group(ModelOf, rows, models[k])))
    {
      entries := entries + [EntryOf(score, metric, models[i], modelData[models[i]])];
    }
  }

  method GetLeaderboard(rankingBy: string, rows: seq<RunRow>, limit: int, round: real -> real)
    returns (ranked: seq<Entry>)
    ensures ranked == Board(rankingBy, rows, limit, round)
  {
    var models, modelData := FoldBy(ModelOf, Accumulate, NO_RUNS, rows);
    var entries := BuildEntries(RoundedValue(rankingBy, round), rankingBy, rows, models, modelData);
    ranked := SortAndRank(OrderBy(rankingBy), entries, limit);
  }

  lemma EntriesFacts(rankingBy: string, rows: seq<RunRow>, round: real -> real)
    ensures var entries := AllEntries(rankingBy, rows, round);
            && |entries| == |Keys(ModelOf, rows)|
            && (forall i, j :: 0 <= i < j < |entries| ==> entries[i].model != entries[j].model)
            && (forall e :: e in entries ==>
                  && e.model in Keys(ModelOf, rows) && e.score == ModelScore(rankingBy, rows, round, e.model)
                  && e.metricName == rankingBy && e.provider == LastProvider(Group(ModelOf, rows, e.model)))
            && forall m :: m in Keys(ModelOf, rows) ==>
                 exists e :: e in entries && e.model == m
  {
    var keys, entries := Keys(ModelOf, rows), AllEntries(rankingBy, rows, round);
    KeysDistinct(ModelOf, rows);
    forall i | 0 <= i < |keys|
      ensures entries[i].model == keys[i] && entries[i].score == ModelScore(rankingBy, rows, round, keys[i])
      ensures entries[i].provider == LastProvider(Group(ModelOf, rows, keys[i]))
    {
      SortValueIsValue(rankingBy, Group(ModelOf, rows, keys[i]));
      AccumulatedSums(Group(ModelOf, rows, keys[i]));
    }
    forall m | m in keys ensures exists e :: e in entries && e.model == m {
      var k :| 0 <= k < |keys| && keys[k] == m;
      assert entries[k] in entries;
    }
  }

  lemma BoardPlace(rankingBy: string, rows: seq<RunRow>, limit: int, round: real -> real, i: nat)
    ensures var board := Board(rankingBy, rows, limit, round);
            i < |board| ==>
              && board[i].rank == i + 1 && board[i].model in Keys(ModelOf, rows)
              && board[i].score == ModelScore(rankingBy, rows, round, board[i].model)
              && board[i].metricName == rankingBy
              && board[i].provider == LastProvider(Group(ModelOf, rows, board[i].model))
  {
    if i < |Board(rankingBy, rows, limit, round)| {
      EntriesFacts(rankingBy, rows, round);
      TopPlace(OrderBy(rankingBy), AllEntries(rankingBy, rows, round), limit, i);
    }
  }

  lemma OrderMeans(rankingBy: string, a: Entry, b: Entry)
    ensures OrderBy(rankingBy)(a) <= OrderBy(rankingBy)(b) <==> AtLeastAsGood(rankingBy, a.score, b.score)
  {
    var f := OrderBy(rankingBy);
    assert f(a) == (if LowerIsBetter(rankingBy) then a.score else -a.score);
    assert f(b) == (if LowerIsBetter(rankingBy) then b.score else -b.score);
  }

  /** The order of the board, for any entries. */
  lemma TopOrder(rankingBy: string, entries: seq<Entry>, limit: int, i: nat, j: nat)
    requires i < j < |Top(OrderBy(rankingBy), entries, limit)|
    requires forall k, l :: 0 <= k < l < |entries| ==> entries[k].model != entries[l].model
    ensures var board := Top(OrderBy(rankingBy), entries, limit);
            board[i].model != board[j].model && AtLeastAsGood(rankingBy, board[i].score, board[j].score)
  {
    var f := OrderBy(rankingBy);
    TopPlace(f, entries, limit, i);
    TopPlace(f, entries, limit, j);
    TopPair(f, entries, limit, i, j);
    OrderMeans(rankingBy, SortBy(f, entries)[i], SortBy(f, entries)[j]);
  }

  lemma TopBest(rankingBy: string, entries: seq<Entry>, limit: int, i: nat, e: Entry)
    requires i < |Top(OrderBy(rankingBy), entries, limit)| && e in entries
    requires forall j :: 0 <= j < |Top(OrderBy(rankingBy), entries, limit)| ==>
               Top(OrderBy(rankingBy), entries, limit)[j].model != e.model
    ensures AtLeastAsGood(rankingBy, Top(OrderBy(rankingBy), entries, limit)[i].score, e.score)
  {
    TopPlace(OrderBy(rankingBy), entries, limit, i);
    TopExcludes(OrderBy(rankingBy), entries, limit, i, e);
    OrderMeans(rankingBy, SortBy(OrderBy(rankingBy), entries)[i], e);
  }

  /** A model that no place of the board names. */
  ghost predicate LeftOff(board: seq<Entry>, rows: seq<RunRow>, model: string) {
    model in Keys(ModelOf, rows) && forall j :: 0 <= j < |board| ==> board[j].model != model
  }

  /** In terms of the order that belongs to the ranking: better models first, and none
      left off is better than one on the board. */
  lemma BoardIsTop(rankingBy: string, rows: seq<RunRow>, limit: int, round: real -> real)
    ensures var board := Board(rankingBy, rows, limit, round);
            && |board| == Cut(|Keys(ModelOf, rows)|, limit)
            && (forall i :: 0 <= i < |board| ==>
                  && board[i].rank == i + 1 && board[i].model in Keys(ModelOf, rows)
                  && board[i].score == ModelScore(rankingBy, rows, round, board[i].model)
                  && board[i].metricName == rankingBy
                  && board[i].provider == LastProvider(Group(ModelOf, rows, board[i].model)))
            && (forall i, j :: 0 <= i < j < |board| ==>
                  board[i].model != board[j].model && AtLeastAsGood(rankingBy, board[i].score, board[j].score))
            && forall i, m :: 0 <= i < |board| && LeftOff(board, rows, m) ==>
                 AtLeastAsGood(rankingBy, board[i].score, ModelScore(rankingBy, rows, round, m))
  {
    var entries, board := AllEntries(rankingBy, rows, round), Board(rankingBy, rows, limit, round);
    EntriesFacts(rankingBy, rows, round);
    forall i | 0 <= i < |board| { BoardPlace(rankingBy, rows, limit, round, i); }
    forall i, j | 0 <= i < j < |board| { TopOrder(rankingBy, entries, limit, i, j); }
    forall i, m | 0 <= i < |board| && LeftOff(board, rows, m)
      ensures AtLeastAsGood(rankingBy, board[i].score, ModelScore(rankingBy, rows, round, m))
    {
      var e :| e in entries && e.model == m;
      TopBest(rankingBy, entries, limit, i, e);
    }
  }

  /** The score of a place is the rounded value of its model's runs. */
  ghost predicate Scores(board: seq<Entry>, rows: seq<RunRow>, round: real -> real, value: seq<RunRow> -> real) {
    forall i :: 0 <= i < |board| ==> board[i].score == round(value(Group(ModelOf, rows, board[i].model)))
  }

  /** The lowest scores, ascending. */
  ghost predicate Lowest(board: seq<Entry>, rows: seq<RunRow>, round: real -> real, value: seq<RunRow> -> real) {
    && Scores(board, rows, round, value)
    && (forall i, j :: 0 <= i < j < |board| ==> board[i].score <= board[j].score)
    && forall i, m :: 0 <= i < |board| && LeftOff(board, rows, m) ==>
         board[i].score <= round(value(Group(ModelOf, rows, m)))
  }

  /** The highest scores, descending. */
  ghost predicate Highest(board: seq<Entry>, rows: seq<RunRow>, round: real -> real, value: seq<RunRow> -> real) {
    && Scores(board, rows, round, value)
    && (forall i, j :: 0 <= i < j < |board| ==> board[i].score >= board[j].score)
    && forall i, m :: 0 <= i < |board| && LeftOff(board, rows, m) ==>
         board[i].score >= round(value(Group(ModelOf, rows, m)))
  }

  /** `board` lists models with the scores of this ranking, in its order, and none left
      off is better. */
  ghost predicate InOrder(rankingBy: string, board: seq<Entry>, rows: seq<RunRow>, round: real -> real) {
    && (forall i :: 0 <= i < |board| ==> board[i].score == ModelScore(rankingBy, rows, round, board[i].model))
    && (forall i, j :: 0 <= i < j < |board| ==> AtLeastAsGood(rankingBy, board[i].score, board[j].score))
    && forall i, m :: 0 <= i < |board| && LeftOff(board, rows, m) ==>
         AtLeastAsGood(rankingBy, board[i].score, ModelScore(rankingBy, rows, round, m))
  }

  lemma LowestLatencies(board: seq<Entry>, rows: seq<RunRow>, round: real -> real)
    requires InOrder("latency", board, rows, round)
    ensures Lowest(board, rows, round, AverageLatency)
  {
  }

  lemma LowestCosts(board: seq<Entry>, rows: seq<RunRow>, round: real -> real)
    requires InOrder("cost", board, rows, round)
    ensures Lowest(board, rows, round, AverageCost)
  {
    assert |"latency"| == 7 && |"cost"| == 4;
  }

  lemma HighestScores(rankingBy: string, board: seq<Entry>, rows: seq<RunRow>, round: real -> real)
    requires InOrder(rankingBy, board, rows, round) && rankingBy != "latency" && rankingBy != "cost"
    ensures Highest(board, rows, round, CompletionScore)
  {
  }

  /** The leaderboard has the first `limit` places, or all but the last `-limit`, ranked
      from 1, each with another model, its last provider and the ranking's name.  By
      latency and by cost it shows the lowest rounded averages, in ascending order, and
      by any other ranking the highest rounded completion scores, in descending order. */
  lemma LeaderboardIsTop(rankingBy: string, rows: seq<RunRow>, limit: int, round: real -> real)
    ensures var board, n := Board(rankingBy, rows, limit, round), |Keys(ModelOf, rows)|;
            && (limit >= n ==> |board| == n) && (0 <= limit <= n ==> |board| == limit)
            && (-n <= limit < 0 ==> |board| == n + limit) && (limit < -n ==> |board| == 0)
            && (forall i :: 0 <= i < |board| ==>
                  && board[i].rank == i + 1 && board[i].model in Keys(ModelOf, rows)
                  && board[i].metricName == rankingBy
                  && board[i].provider == LastProvider(Group(ModelOf, rows, board[i].model)))
            && (forall i, j :: 0 <= i < j < |board| ==> board[i].model != board[j].model)
            && if rankingBy == "latency" then Lowest(board, rows, round, AverageLatency)
               else if rankingBy == "cost" then Lowest(board, rows, round, AverageCost)
               else Highest(board, rows, round, CompletionScore)
  {
    var board := Board(rankingBy, rows, limit, round);
    BoardIsTop(rankingBy, rows, limit, round);
    if rankingBy == "latency" {
      LowestLatencies(board, rows, round);
    } else if rankingBy == "cost" {
      LowestCosts(board, rows, round);
    } else {
      HighestScores(rankingBy, board, rows, round);
    }
  }
}
