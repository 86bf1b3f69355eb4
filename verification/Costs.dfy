/** Cost totals per provider and per model
    (backend/app/analytics/services/cost_service.py).  Entries hold the exact costs;
    `round` is the rounding that they are displayed with and sorted by. */
module Costs {
  import opened Collections
  import opened Grouping
  import opened Sorting
  import opened RunRows

  datatype CostEntry = CostEntry(name: string, provider: string, totalCost: real, runCount: nat, averageCost: real)

  function TotalCost(e: CostEntry): real { e.totalCost }

  /** The sort key of `reverse=True` on displayed costs. */
  function NegatedCost(round: real -> real): CostEntry -> real {
    (e: CostEntry) => -round(e.totalCost)
  }

  function CountOf(e: CostEntry): real { e.runCount as real }

  /** The running totals of the dictionaries. */
  datatype Totals = Totals(cost: real, count: nat, provider: string)

  const NO_TOTALS := Totals(0.0, 0, "")

  function AddRun(t: Totals, run: RunRow): Totals {
    Totals(t.cost + run.cost, t.count + 1, run.provider)
  }

  function EntryOf(name: string, t: Totals): CostEntry {
    CostEntry(name, t.provider, t.cost, t.count, if t.count > 0 then t.cost / t.count as real else 0.0)
  }

  lemma {:induction false} TotalsAreSums(rows: seq<RunRow>)
    ensures Fold(AddRun, NO_TOTALS, rows) == Totals(SumReal(CostOf, rows), |rows|, LastProvider(rows))
  {
    if rows == [] {
    } else {
      TotalsAreSums(rows[..|rows| - 1]);
    }
  }

  /** An entry holds the sum, the number and the average of its group's costs. */
  lemma EntryDescribesGroup(name: string, rows: seq<RunRow>)
    ensures var e := EntryOf(name, Fold(AddRun, NO_TOTALS, rows));
            && e.totalCost == SumReal(CostOf, rows) && e.runCount == |rows| && e.averageCost == AverageCost(rows)
            && e.provider == LastProvider(rows)
  {
    TotalsAreSums(rows);
  }

  /** One entry for each group, in the order first seen. */
  function EntriesOf(key: RunRow -> string, rows: seq<RunRow>, names: seq<string>): (entries: seq<CostEntry>)
    ensures |entries| == |names|
    ensures forall i :: 0 <= i < |names| ==>
              entries[i] == EntryOf(names[i], Fold(AddRun, NO_TOTALS, Group(key, rows, names[i])))
  {
    Map((name: string) => EntryOf(name, Fold(AddRun, NO_TOTALS, Group(key, rows, name))), names)
  }

  method BuildEntries(ghost key: RunRow -> string, ghost rows: seq<RunRow>, names: seq<string>,
                      data: map<string, Totals>)
    returns (result: seq<CostEntry>)
    requires forall k :: k in names ==> k in data && data[k] == Fold(AddRun, NO_TOTALS, Group(key, rows, k))
    ensures result == EntriesOf(key, rows, names)
  {
    result := [];
    for i := 0 to |names|
      invariant |result| == i
      invariant forall k :: 0 <= k < i ==>
                  result[k] == EntryOf(names[k], Fold(AddRun, NO_TOTALS, Group(key, rows, names[k])))
    {
      result := result + [EntryOf(names[i], data[names[i]])];
    }
  }

  /** The entries of the groups, most expensive first; `key` is the provider or
      the model of a run. */
  method ComputeCosts(key: RunRow -> string, rows: seq<RunRow>, round: real -> real) returns (costs: seq<CostEntry>)
    ensures costs == SortBy(NegatedCost(round), EntriesOf(key, rows, Keys(key, rows)))
  {
    var names, data := FoldBy(key, AddRun, NO_TOTALS, rows);
    costs := BuildEntries(key, rows, names, data);
    costs := SortBy(NegatedCost(round), costs);
  }

  lemma {:induction false} EntriesTotal(key: RunRow -> string, rows: seq<RunRow>, names: seq<string>)
    ensures SumReal(TotalCost, EntriesOf(key, rows, names)) == GroupsTotal(CostOf, key, rows, names)
    ensures SumReal(CountOf, EntriesOf(key, rows, names)) == GroupsTotal(One, key, rows, names)
  {
    if names == [] {
    } else {
      var n := |names| - 1;
      EntriesTotal(key, rows, names[..n]);
      CountsRows(Group(key, rows, names[n]));
      EntryDescribesGroup(names[n], Group(key, rows, names[n]));
      assert EntriesOf(key, rows, names)[..n] == EntriesOf(key, rows, names[..n]);
    }
  }

  /** Nothing is lost or counted twice by grouping: the entries' costs add up to
      the total cost of the runs and their counts to the number of runs; they are
      ordered from the most expensive down as displayed, one for each name that
      occurs. */
  lemma CostsConserved(key: RunRow -> string, rows: seq<RunRow>, round: real -> real)
    ensures var costs := SortBy(NegatedCost(round), EntriesOf(key, rows, Keys(key, rows)));
            && SumReal(TotalCost, costs) == SumReal(CostOf, rows)
            && SumReal(CountOf, costs) == |rows| as real
            && (forall i, j :: 0 <= i < j < |costs| ==> round(costs[i].totalCost) >= round(costs[j].totalCost))
            && |costs| == |Keys(key, rows)|
  {
    var names := Keys(key, rows);
    var entries := EntriesOf(key, rows, names);
    KeysDistinct(key, rows);
    EntriesTotal(key, rows, names);
    GroupsConserve(CostOf, key, rows, names);
    GroupsConserve(One, key, rows, names);
    CountsRows(rows);
    SortSum(NegatedCost(round), entries, TotalCost);
    SortSum(NegatedCost(round), entries, CountOf);
    SortSorts(NegatedCost(round), entries);
  }
}
