/** Comparing models or providers: grouping and the search for the best entity
    (backend/app/analytics/services/comparison_service.py). */
module Comparison {
  import opened Wrappers
  import opened Collections
  import opened Text
  import opened Grouping
  import opened RunRows

  predicate Chosen(entityType: string, entityIds: seq<string>, r: RunRow) {
    || entityIds == []
    || (entityType == "model" && r.model in entityIds)
    || (entityType == "provider" && r.provider in entityIds)
  }

  function KeyOf(entityType: string): RunRow -> string {
    if entityType == "model" then ModelOf else ProviderOf
  }

  function Selected(entityType: string, entityIds: seq<string>, rows: seq<RunRow>): seq<RunRow> {
    Filter((r: RunRow) => Chosen(entityType, entityIds, r), rows)
  }

  /** The three values compared, entity by entity. */
  datatype Values = Values(names: seq<string>, scores: seq<real>, latencies: seq<real>, costs: seq<real>)

  datatype Best = Best(scoreId: string, latencyId: string, costId: string)

  ghost predicate Aligned(v: Values) {
    |v.names| == |v.scores| == |v.latencies| == |v.costs|
  }

  /** `best` names the first entity with the highest value. */
  ghost predicate FirstHighest(names: seq<string>, values: seq<real>, best: string)
    requires |names| == |values|
  {
    || (names == [] && best == "")
    || exists i :: 0 <= i < |names| && names[i] == best
         && (forall j :: 0 <= j < |names| ==> values[j] <= values[i])
         && forall j :: 0 <= j < i ==> values[j] < values[i]
  }

  /** `best` names the first entity with the lowest value above zero, and no one
      when there is none. */
  ghost predicate FirstLowestPositive(names: seq<string>, values: seq<real>, best: string)
    requires |names| == |values|
  {
    || (best == "" && forall j :: 0 <= j < |names| ==> values[j] <= 0.0)
    || exists i :: 0 <= i < |names| && names[i] == best && values[i] > 0.0
         && (forall j :: 0 <= j < |names| && values[j] > 0.0 ==> values[i] <= values[j])
         && forall j :: 0 <= j < i && values[j] > 0.0 ==> values[i] < values[j]
  }

  /** The place of the first lowest positive value among the first `n`, or -1. */
  ghost predicate LowestAt(values: seq<real>, n: nat, place: int)
    requires n <= |values|
  {
    if place == -1 then forall j :: 0 <= j < n ==> values[j] <= 0.0
    else
      && 0 <= place < n && values[place] > 0.0
      && (forall j :: 0 <= j < n && values[j] > 0.0 ==> values[place] <= values[j])
      && forall j :: 0 <= j < place && values[j] > 0.0 ==> values[place] < values[j]
  }

  ghost predicate HighestAt(values: seq<real>, n: nat, place: int)
    requires n <= |values|
  {
    if place == -1 then n == 0
    else
      && 0 <= place < n && (forall j :: 0 <= j < n ==> values[j] <= values[place])
      && forall j :: 0 <= j < place ==> values[j] < values[place]
  }

  /** Scores are never negative, so the search may start below zero. */
  method FindBest(v: Values) returns (best: Best)
    requires Aligned(v) && forall j :: 0 <= j < |v.scores| ==> v.scores[j] >= 0.0
    ensures FirstHighest(v.names, v.scores, best.scoreId)
    ensures FirstLowestPositive(v.names, v.latencies, best.latencyId)
    ensures FirstLowestPositive(v.names, v.costs, best.costId)
  {
    var bestScore := -1.0;
    var bestLatency: Option<real>, bestCost: Option<real> := None, None;
    var scoreId, latencyId, costId := "", "", "";
    ghost var score, latency, cost := -1, -1, -1;
    for i := 0 to |v.names|
      invariant HighestAt(v.scores, i, score) && LowestAt(v.latencies, i, latency) && LowestAt(v.costs, i, cost)
      invariant bestScore == (if score == -1 then -1.0 else v.scores[score])
      invariant scoreId == (if score == -1 then "" else v.names[score])
      invariant bestLatency == (if latency == -1 then None else Some(v.latencies[latency]))
      invariant latencyId == (if latency == -1 then "" else v.names[latency])
      invariant bestCost == (if cost == -1 then None else Some(v.costs[cost]))
      invariant costId == (if cost == -1 then "" else v.names[cost])
    {
      if v.scores[i] > bestScore {
        bestScore, scoreId, score := v.scores[i], v.names[i], i;
      }
      if (bestLatency.None? || v.latencies[i] < bestLatency.value) && v.latencies[i] > 0.0 {
        bestLatency, latencyId, latency := Some(v.latencies[i]), v.names[i], i;
      }
      if (bestCost.None? || v.costs[i] < bestCost.value) && v.costs[i] > 0.0 {
        bestCost, costId, cost := Some(v.costs[i]), v.names[i], i;
      }
    }
    best := Best(scoreId, latencyId, costId);
  }

  /** With named entities, a best latency or cost is missing exactly when no entity
      has one above zero, and a best score exactly when there is no entity. */
  lemma BestMissingExactly(v: Values, best: Best)
    requires Aligned(v) && forall i :: 0 <= i < |v.names| ==> v.names[i] != ""
    requires FirstHighest(v.names, v.scores, best.scoreId)
    requires FirstLowestPositive(v.names, v.latencies, best.latencyId)
    requires FirstLowestPositive(v.names, v.costs, best.costId)
    ensures best.scoreId == "" <==> v.names == []
    ensures best.latencyId == "" <==> forall i :: 0 <= i < |v.names| ==> v.latencies[i] <= 0.0
    ensures best.costId == "" <==> forall i :: 0 <= i < |v.names| ==> v.costs[i] <= 0.0
  {
  }

  /** `v` holds the values of the groups of the rows. */
  ghost predicate Describes(v: Values, key: RunRow -> string, rows: seq<RunRow>,
                            score: seq<RunRow> -> real, latency: seq<RunRow> -> real, cost: seq<RunRow> -> real)
  {
    && Aligned(v) && v.names == Keys(key, rows)
    && forall i :: 0 <= i < |v.names| ==>
         && v.scores[i] == score(Group(key, rows, v.names[i]))
         && v.latencies[i] == latency(Group(key, rows, v.names[i]))
         && v.costs[i] == cost(Group(key, rows, v.names[i]))
  }

  lemma GroupsHeld(key: RunRow -> string, rows: seq<RunRow>, names: seq<string>, groups: map<string, seq<RunRow>>)
    requires Holds(key, Append, [], rows, names, groups)
    ensures forall k :: k in names ==> groups[k] == Group(key, rows, k)
  {
    forall k | k in names ensures groups[k] == Group(key, rows, k) {
      FoldAppend(Group(key, rows, k));
    }
  }

  /** Groups the runs and takes three values of each group. */
  method ComputeValues(key: RunRow -> string, rows: seq<RunRow>,
                       score: seq<RunRow> -> real, latency: seq<RunRow> -> real, cost: seq<RunRow> -> real)
    returns (v: Values)
    ensures Describes(v, key, rows, score, latency, cost)
  {
    var names, groups := FoldBy<RunRow, seq<RunRow>>(key, Append, [], rows);
    GroupsHeld(key, rows, names, groups);
    var scores: seq<real>, latencies: seq<real>, costs: seq<real> := [], [], [];
    for i := 0 to |names|
      invariant |scores| == |latencies| == |costs| == i
      invariant forall k :: 0 <= k < i ==>
        && scores[k] == score(Group(key, rows, names[k]))
        && latencies[k] == latency(Group(key, rows, names[k]))
        && costs[k] == cost(Group(key, rows, names[k]))
    {
      var runs := groups[names[i]];
      scores := scores + [score(runs)];
      latencies := latencies + [latency(runs)];
      costs := costs + [cost(runs)];
    }
    v := Values(names, scores, latencies, costs);
  }

  /** The run counts for this entity: for a model's name when models are compared and
      for a provider's otherwise, if no entities are asked for, or if this one is. */
  predicate CountsFor(entityType: string, entityIds: seq<string>, r: RunRow, name: string) {
    if entityType == "model" then r.model == name && (entityIds == [] || name in entityIds)
    else r.provider == name && (entityIds == [] || (entityType == "provider" && name in entityIds))
  }

  /** The runs of one entity. */
  function RunsFor(entityType: string, entityIds: seq<string>, rows: seq<RunRow>, name: string): seq<RunRow> {
    Filter((r: RunRow) => CountsFor(entityType, entityIds, r, name), rows)
  }

  lemma {:induction false} GroupIsRuns(entityType: string, entityIds: seq<string>, rows: seq<RunRow>, name: string)
    ensures Group(KeyOf(entityType), Selected(entityType, entityIds, rows), name)
         == RunsFor(entityType, entityIds, rows, name)
  {
    if rows == [] {
    } else {
      var n := |rows| - 1;
      var before := Selected(entityType, entityIds, rows[..n]);
      GroupIsRuns(entityType, entityIds, rows[..n], name);
      GroupSnoc(KeyOf(entityType), before, rows[n], name);
      assert before + [] == before;
      ModelsApart(entityType);
    }
  }

  lemma ModelsApart(entityType: string)
    ensures !(entityType == "model" && entityType == "provider")
  {
    assert |"model"| == 5 && |"provider"| == 8;
  }

  /** `v` lists every entity that has runs, once, with the completion score, the average
      latency and the average cost of its runs. */
  ghost predicate Compares(v: Values, entityType: string, entityIds: seq<string>, rows: seq<RunRow>) {
    && Aligned(v) && Distinct(v.names)
    && (forall name :: name in v.names <==> exists r :: r in rows && CountsFor(entityType, entityIds, r, name))
    && forall i :: 0 <= i < |v.names| ==>
         var runs := RunsFor(entityType, entityIds, rows, v.names[i]);
         v.scores[i] == CompletionScore(runs) && v.latencies[i] == AverageLatency(runs)
         && v.costs[i] == AverageCost(runs)
  }

  lemma DescribesEntities(v: Values, entityType: string, entityIds: seq<string>, rows: seq<RunRow>)
    requires Describes(v, KeyOf(entityType), Selected(entityType, entityIds, rows),
                       CompletionScore, AverageLatency, AverageCost)
    ensures Compares(v, entityType, entityIds, rows)
  {
    KeysOfGroups(KeyOf(entityType), Selected(entityType, entityIds, rows));
    forall name ensures name in v.names <==> exists r :: r in rows && CountsFor(entityType, entityIds, r, name) {
      var runs := RunsFor(entityType, entityIds, rows, name);
      GroupIsRuns(entityType, entityIds, rows, name);
      FilterMembers((r: RunRow) => CountsFor(entityType, entityIds, r, name), rows);
      if runs != [] { assert runs[0] in runs; }
    }
    forall i | 0 <= i < |v.names| { GroupIsRuns(entityType, entityIds, rows, v.names[i]); }
  }

  /** The compared entities are those with selected runs, sorted by name, and the best
      ones are the first true extremes of their values. */
  method Compare(entityType: string, entityIds: seq<string>, rows: seq<RunRow>)
    returns (items: seq<string>, v: Values, best: Best)
    ensures Compares(v, entityType, entityIds, rows)
    ensures IsSortedSet(items, Elements(v.names))
    ensures FirstHighest(v.names, v.scores, best.scoreId)
    ensures FirstLowestPositive(v.names, v.latencies, best.latencyId)
    ensures FirstLowestPositive(v.names, v.costs, best.costId)
  {
    v := ComputeValues(KeyOf(entityType), Selected(entityType, entityIds, rows),
                       CompletionScore, AverageLatency, AverageCost);
    items := Sorted(set name | name in v.names);
    forall i | 0 <= i < |v.scores| ensures v.scores[i] >= 0.0 {
      ScoreNonNegative(Group(KeyOf(entityType), Selected(entityType, entityIds, rows), v.names[i]));
    }
    best := FindBest(v);
    DescribesEntities(v, entityType, entityIds, rows);
  }
}
