/** Which models the leaderboard shows and in which places, in terms of the runs:
    every place, ties, and what rounding the scores hides
    (backend/app/analytics/services/leaderboard_service.py:95-117). */
module LeaderboardPlaces {
  import opened Collections
  import opened Grouping
  import opened Sorting
  import opened RunRows
  import opened Leaderboard

  // ----- The place of a model -----

  /** The model `n` is placed before `m`: its score is better, or equal and it was
      seen first. */
  ghost predicate Ahead(rankingBy: string, rows: seq<RunRow>, round: real -> real, n: string, m: string) {
    var a, b := ModelScore(rankingBy, rows, round, n), ModelScore(rankingBy, rows, round, m);
    !AtLeastAsGood(rankingBy, b, a) || (a == b && Precedes(Keys(ModelOf, rows), n, m))
  }

  /** The models placed before `m`. */
  ghost function AheadOf(rankingBy: string, rows: seq<RunRow>, round: real -> real, m: string): set<string> {
    set n | n in Keys(ModelOf, rows) && Ahead(rankingBy, rows, round, n, m)
  }

  lemma NotBoth(keys: seq<string>, n: string, m: string)
    requires Distinct(keys)
    ensures !(Precedes(keys, n, m) && Precedes(keys, m, n)) && !Precedes(keys, m, m)
  {
  }

  lemma AheadAsymmetric(rankingBy: string, rows: seq<RunRow>, round: real -> real, n: string, m: string)
    ensures !(Ahead(rankingBy, rows, round, n, m) && Ahead(rankingBy, rows, round, m, n))
    ensures !Ahead(rankingBy, rows, round, m, m)
  {
    KeysDistinct(ModelOf, rows);
    NotBoth(Keys(ModelOf, rows), n, m);
  }

  /** All entries, sorted: the board before it is cut and ranked. */
  function Sorted(rankingBy: string, rows: seq<RunRow>, round: real -> real): seq<Entry> {
    SortBy(OrderBy(rankingBy), AllEntries(rankingBy, rows, round))
  }

  lemma SortedEntry(rankingBy: string, rows: seq<RunRow>, round: real -> real, i: nat)
    requires i < |Sorted(rankingBy, rows, round)|
    ensures var e := Sorted(rankingBy, rows, round)[i];
            e.model in Keys(ModelOf, rows) && e.score == ModelScore(rankingBy, rows, round, e.model)
  {
    EntriesFacts(rankingBy, rows, round);
    SortKeepsMembers(OrderBy(rankingBy), AllEntries(rankingBy, rows, round));
    assert Sorted(rankingBy, rows, round)[i] in AllEntries(rankingBy, rows, round);
  }

  lemma SortedModel(rankingBy: string, rows: seq<RunRow>, round: real -> real, m: string) returns (i: nat)
    requires m in Keys(ModelOf, rows)
    ensures i < |Sorted(rankingBy, rows, round)| && Sorted(rankingBy, rows, round)[i].model == m
  {
    EntriesFacts(rankingBy, rows, round);
    var e :| e in AllEntries(rankingBy, rows, round) && e.model == m;
    i := SortedPlace(OrderBy(rankingBy), AllEntries(rankingBy, rows, round), e);
  }

  lemma SortedOrder(rankingBy: string, rows: seq<RunRow>, round: real -> real)
    ensures |Sorted(rankingBy, rows, round)| == |Keys(ModelOf, rows)|
    ensures Ascending(OrderBy(rankingBy), Sorted(rankingBy, rows, round))
  {
    SortSorts(OrderBy(rankingBy), AllEntries(rankingBy, rows, round));
  }

  /** Equal scores stand in the order in which their models were first seen. */
  lemma TiedEntries(rankingBy: string, rows: seq<RunRow>, round: real -> real, i: nat, j: nat)
    ensures var sorted := Sorted(rankingBy, rows, round);
            i < j < |sorted| && sorted[i].score == sorted[j].score ==>
              Precedes(Keys(ModelOf, rows), sorted[i].model, sorted[j].model)
  {
    var f, entries, sorted := OrderBy(rankingBy), AllEntries(rankingBy, rows, round), Sorted(rankingBy, rows, round);
    if i < j < |sorted| && sorted[i].score == sorted[j].score {
      var x, y := sorted[i], sorted[j];
      OrderMeans(rankingBy, x, y);
      OrderMeans(rankingBy, y, x);
      assert Precedes(sorted, x, y);
      SortKeepsTies(f, entries, x, y);
      var k, l :| 0 <= k < l < |entries| && entries[k] == x && entries[l] == y;
      assert Keys(ModelOf, rows)[k] == x.model && Keys(ModelOf, rows)[l] == y.model;
    }
  }

  lemma EarlierIsAhead(rankingBy: string, rows: seq<RunRow>, round: real -> real, i: nat, j: nat)
    requires i < j < |Sorted(rankingBy, rows, round)|
    ensures var sorted := Sorted(rankingBy, rows, round);
            Ahead(rankingBy, rows, round, sorted[i].model, sorted[j].model)
  {
    var sorted := Sorted(rankingBy, rows, round);
    SortedOrder(rankingBy, rows, round);
    SortedEntry(rankingBy, rows, round, i);
    SortedEntry(rankingBy, rows, round, j);
    TiedEntries(rankingBy, rows, round, i, j);
    OrderMeans(rankingBy, sorted[i], sorted[j]);
  }

  /** Of two places, the earlier one is that of the model ahead. */
  lemma AheadIsEarlier(rankingBy: string, rows: seq<RunRow>, round: real -> real, i: nat, j: nat)
    requires i < |Sorted(rankingBy, rows, round)| && j < |Sorted(rankingBy, rows, round)|
    ensures var sorted := Sorted(rankingBy, rows, round);
            && (Ahead(rankingBy, rows, round, sorted[i].model, sorted[j].model) <==> i < j)
            && (sorted[i].model == sorted[j].model <==> i == j)
  {
    var sorted := Sorted(rankingBy, rows, round);
    AheadAsymmetric(rankingBy, rows, round, sorted[i].model, sorted[j].model);
    AheadAsymmetric(rankingBy, rows, round, sorted[i].model, sorted[i].model);
    if i < j { EarlierIsAhead(rankingBy, rows, round, i, j); }
    if j < i { EarlierIsAhead(rankingBy, rows, round, j, i); }
  }

  /** The models in the order of the sorted list. */
  function Order(rankingBy: string, rows: seq<RunRow>, round: real -> real): seq<string> {
    Map((e: Entry) => e.model, Sorted(rankingBy, rows, round))
  }

  /** It has every model once, in the order of being ahead. */
  lemma OrderFacts(rankingBy: string, rows: seq<RunRow>, round: real -> real)
    ensures var order := Order(rankingBy, rows, round);
            && |order| == |Keys(ModelOf, rows)| && Distinct(order)
            && (forall m :: m in order <==> m in Keys(ModelOf, rows))
            && forall i, j :: 0 <= i < |order| && 0 <= j < |order| ==>
                 (Ahead(rankingBy, rows, round, order[i], order[j]) <==> i < j)
  {
    var order := Order(rankingBy, rows, round);
    SortedOrder(rankingBy, rows, round);
    forall i, j | 0 <= i < |order| && 0 <= j < |order|
      ensures Ahead(rankingBy, rows, round, order[i], order[j]) <==> i < j
      ensures order[i] == order[j] <==> i == j
    {
      AheadIsEarlier(rankingBy, rows, round, i, j);
    }
    forall i | 0 <= i < |order| ensures order[i] in Keys(ModelOf, rows) {
      SortedEntry(rankingBy, rows, round, i);
    }
    forall m | m in Keys(ModelOf, rows) ensures m in order {
      var i := SortedModel(rankingBy, rows, round, m);
      assert order[i] == m;
    }
  }

  /** Counting what stands before a place. */
  lemma PlaceCount(order: seq<string>, i: nat, before: set<string>)
    requires i < |order| && Distinct(order) && forall n :: n in before ==> n in order
    requires forall k :: 0 <= k < |order| ==> (order[k] in before <==> k < i)
    ensures |before| == i
  {
    DistinctSize(order[..i]);
    assert before == set n | n in order[..i];
  }

  /** The number of models ahead is the place in that order. */
  lemma PlaceIsAhead(rankingBy: string, rows: seq<RunRow>, round: real -> real, i: nat)
    requires i < |Order(rankingBy, rows, round)|
    ensures |AheadOf(rankingBy, rows, round, Order(rankingBy, rows, round)[i])| == i
  {
    var order := Order(rankingBy, rows, round);
    OrderFacts(rankingBy, rows, round);
    PlaceCount(order, i, AheadOf(rankingBy, rows, round, order[i]));
  }

  lemma PlaceOf(rankingBy: string, rows: seq<RunRow>, round: real -> real, m: string) returns (i: nat)
    requires m in Keys(ModelOf, rows)
    ensures i < |Order(rankingBy, rows, round)| == |Sorted(rankingBy, rows, round)| == |Keys(ModelOf, rows)|
    ensures Order(rankingBy, rows, round)[i] == Sorted(rankingBy, rows, round)[i].model == m
    ensures |AheadOf(rankingBy, rows, round, m)| == i
  {
    i := SortedModel(rankingBy, rows, round, m);
    SortedOrder(rankingBy, rows, round);
    PlaceIsAhead(rankingBy, rows, round, i);
  }

  /** The board is the front of the sorted list, but for the ranks. */
  lemma TopEntry(f: Entry -> real, entries: seq<Entry>, limit: int, i: nat)
    requires i < |Top(f, entries, limit)|
    ensures var top, sorted := Top(f, entries, limit), SortBy(f, entries);
            && |top| <= |sorted| && top[i].rank == i + 1
            && top[i].model == sorted[i].model && top[i].score == sorted[i].score
  {
    TopPlace(f, entries, limit, i);
  }

  lemma BoardEntry(rankingBy: string, rows: seq<RunRow>, limit: int, round: real -> real, i: nat)
    requires i < |Board(rankingBy, rows, limit, round)|
    ensures var board, sorted := Board(rankingBy, rows, limit, round), Sorted(rankingBy, rows, round);
            && |board| <= |sorted| && board[i].rank == i + 1
            && board[i].model == sorted[i].model && board[i].score == sorted[i].score
  {
    TopEntry(OrderBy(rankingBy), AllEntries(rankingBy, rows, round), limit, i);
  }

  lemma CutBound(n: nat, limit: int)
    ensures Cut(n, limit) <= n
  {
  }

  lemma BoardSize(rankingBy: string, rows: seq<RunRow>, limit: int, round: real -> real)
    ensures |Board(rankingBy, rows, limit, round)| == Cut(|Keys(ModelOf, rows)|, limit)
    ensures |Board(rankingBy, rows, limit, round)| <= |Order(rankingBy, rows, round)| == |Keys(ModelOf, rows)|
  {
    BoardIsTop(rankingBy, rows, limit, round);
    SortedOrder(rankingBy, rows, round);
    CutBound(|Keys(ModelOf, rows)|, limit);
  }

  lemma BoardIsFront(rankingBy: string, rows: seq<RunRow>, limit: int, round: real -> real)
    ensures var board, order := Board(rankingBy, rows, limit, round), Order(rankingBy, rows, round);
            && |board| == Cut(|Keys(ModelOf, rows)|, limit) <= |order|
            && forall i :: 0 <= i < |board| ==> board[i].model == order[i] && board[i].rank == i + 1
  {
    var board, order := Board(rankingBy, rows, limit, round), Order(rankingBy, rows, round);
    BoardSize(rankingBy, rows, limit, round);
    forall i | 0 <= i < |board| ensures board[i].model == order[i] && board[i].rank == i + 1 {
      BoardEntry(rankingBy, rows, limit, round, i);
    }
  }

  /** The model at a place has as many others ahead of it. */
  lemma PlacedAhead(rankingBy: string, rows: seq<RunRow>, limit: int, round: real -> real, i: nat)
    requires i < |Board(rankingBy, rows, limit, round)|
    ensures var m := Board(rankingBy, rows, limit, round)[i].model;
            m in Keys(ModelOf, rows) && |AheadOf(rankingBy, rows, round, m)| == i
  {
    BoardIsFront(rankingBy, rows, limit, round);
    OrderFacts(rankingBy, rows, round);
    PlaceIsAhead(rankingBy, rows, round, i);
  }

  /** A front of a list shows what stands in it. */
  lemma FrontShows(board: seq<Entry>, rows: seq<RunRow>, order: seq<string>, i: nat)
    requires |board| <= |order| && i < |order| && Distinct(order) && order[i] in Keys(ModelOf, rows)
    requires forall j :: 0 <= j < |board| ==> board[j].model == order[j]
    ensures LeftOff(board, rows, order[i]) <==> i >= |board|
  {
  }

  /** Which models the board shows, and where: a model with `k` others ahead of it has
      rank `k + 1` if the limit allows that many places, and is left off otherwise. */
  lemma RankExactly(rankingBy: string, rows: seq<RunRow>, limit: int, round: real -> real, m: string)
    requires m in Keys(ModelOf, rows)
    ensures var board, k := Board(rankingBy, rows, limit, round), |AheadOf(rankingBy, rows, round, m)|;
            && k < |Keys(ModelOf, rows)|
            && (LeftOff(board, rows, m) <==> k >= Cut(|Keys(ModelOf, rows)|, limit))
            && (k < |board| ==> board[k].model == m && board[k].rank == k + 1)
  {
    var i := PlaceOf(rankingBy, rows, round, m);
    OrderFacts(rankingBy, rows, round);
    BoardIsFront(rankingBy, rows, limit, round);
    FrontShows(Board(rankingBy, rows, limit, round), rows, Order(rankingBy, rows, round), i);
  }

  lemma TieOnBoard(rankingBy: string, rows: seq<RunRow>, limit: int, round: real -> real, i: nat, j: nat)
    ensures var board := Board(rankingBy, rows, limit, round);
            i < j < |board| && board[i].score == board[j].score ==>
              Precedes(Keys(ModelOf, rows), board[i].model, board[j].model)
  {
    if i < j < |Board(rankingBy, rows, limit, round)| {
      BoardEntry(rankingBy, rows, limit, round, i);
      BoardEntry(rankingBy, rows, limit, round, j);
      TiedEntries(rankingBy, rows, round, i, j);
    }
  }

  lemma TieAtCut(rankingBy: string, rows: seq<RunRow>, limit: int, round: real -> real, i: nat, m: string)
    ensures var board := Board(rankingBy, rows, limit, round);
            i < |board| && LeftOff(board, rows, m) && board[i].score == ModelScore(rankingBy, rows, round, m) ==>
              Precedes(Keys(ModelOf, rows), board[i].model, m)
  {
    if i < |Board(rankingBy, rows, limit, round)| && LeftOff(Board(rankingBy, rows, limit, round), rows, m) {
      var t := PlaceOf(rankingBy, rows, round, m);
      SortedEntry(rankingBy, rows, round, t);
      BoardEntry(rankingBy, rows, limit, round, i);
      RankExactly(rankingBy, rows, limit, round, m);
      TiedEntries(rankingBy, rows, round, i, t);
    }
  }

  /** Models with equal scores are ranked in the order first seen, on the board and
      at the cut. */
  lemma TiesGoToFirstSeen(rankingBy: string, rows: seq<RunRow>, limit: int, round: real -> real)
    ensures var board := Board(rankingBy, rows, limit, round);
            && (forall i, j :: 0 <= i < j < |board| && board[i].score == board[j].score ==>
                  Precedes(Keys(ModelOf, rows), board[i].model, board[j].model))
            && forall i, m :: 0 <= i < |board| && LeftOff(board, rows, m)
                              && board[i].score == ModelScore(rankingBy, rows, round, m) ==>
                 Precedes(Keys(ModelOf, rows), board[i].model, m)
  {
    var board := Board(rankingBy, rows, limit, round);
    forall i, j | 0 <= i < j < |board| && board[i].score == board[j].score
      ensures Precedes(Keys(ModelOf, rows), board[i].model, board[j].model)
    {
      TieOnBoard(rankingBy, rows, limit, round, i, j);
    }
    forall i, m | 0 <= i < |board| && LeftOff(board, rows, m) && board[i].score == ModelScore(rankingBy, rows, round, m)
      ensures Precedes(Keys(ModelOf, rows), board[i].model, m)
    {
      TieAtCut(rankingBy, rows, limit, round, i, m);
    }
  }

  // ----- What rounding hides -----

  ghost predicate Monotone(round: real -> real) {
    forall x, y :: x <= y ==> round(x) <= round(y)
  }

  /** The unrounded value of a model. */
  function TrueValue(rankingBy: string, rows: seq<RunRow>, model: string): real {
    ValueOf(rankingBy, Group(ModelOf, rows, model))
  }

  /** By its unrounded value the model `m` is better than `n`. */
  predicate Better(rankingBy: string, rows: seq<RunRow>, m: string, n: string) {
    !AtLeastAsGood(rankingBy, TrueValue(rankingBy, rows, n), TrueValue(rankingBy, rows, m))
  }

  /** No model left off is better by its unrounded value than one on the board. */
  ghost predicate TrueTop(rankingBy: string, rows: seq<RunRow>, board: seq<Entry>) {
    forall i, m :: 0 <= i < |board| && LeftOff(board, rows, m) ==> !Better(rankingBy, rows, m, board[i].model)
  }

  lemma RoundedAlike(rankingBy: string, rows: seq<RunRow>, round: real -> real, m: string, n: string)
    requires Monotone(round) && Better(rankingBy, rows, m, n)
    requires AtLeastAsGood(rankingBy, ModelScore(rankingBy, rows, round, n), ModelScore(rankingBy, rows, round, m))
    ensures ModelScore(rankingBy, rows, round, m) == ModelScore(rankingBy, rows, round, n)
  {
    assert ModelScore(rankingBy, rows, round, m) == round(TrueValue(rankingBy, rows, m));
    assert ModelScore(rankingBy, rows, round, n) == round(TrueValue(rankingBy, rows, n));
  }

  /** With a monotone rounding, a model that is better by its unrounded value than one
      above it on the board, or than one on the board when it is left off, has the same
      score. */
  lemma BetterIsTied(rankingBy: string, rows: seq<RunRow>, limit: int, round: real -> real)
    requires Monotone(round)
    ensures var board := Board(rankingBy, rows, limit, round);
            && (forall i, j :: 0 <= i < j < |board| && Better(rankingBy, rows, board[j].model, board[i].model) ==>
                  board[i].score == board[j].score)
            && forall i, m ::
                 0 <= i < |board| && LeftOff(board, rows, m) && Better(rankingBy, rows, m, board[i].model) ==>
                 board[i].score == ModelScore(rankingBy, rows, round, m)
  {
    var board := Board(rankingBy, rows, limit, round);
    BoardIsTop(rankingBy, rows, limit, round);
    forall i, j | 0 <= i < j < |board| && Better(rankingBy, rows, board[j].model, board[i].model)
      ensures board[i].score == board[j].score
    {
      RoundedAlike(rankingBy, rows, round, board[j].model, board[i].model);
    }
    forall i, m | 0 <= i < |board| && LeftOff(board, rows, m) && Better(rankingBy, rows, m, board[i].model)
      ensures board[i].score == ModelScore(rankingBy, rows, round, m)
    {
      RoundedAlike(rankingBy, rows, round, m, board[i].model);
    }
  }

  /** Of two models with equal scores that the cut separates, the one left off is not
      better. */
  ghost predicate CutIsFair(rankingBy: string, rows: seq<RunRow>, limit: int, round: real -> real) {
    forall n, m :: n in Keys(ModelOf, rows) && m in Keys(ModelOf, rows)
                   && ModelScore(rankingBy, rows, round, n) == ModelScore(rankingBy, rows, round, m)
                   && |AheadOf(rankingBy, rows, round, n)| < Cut(|Keys(ModelOf, rows)|, limit)
                   && |AheadOf(rankingBy, rows, round, m)| >= Cut(|Keys(ModelOf, rows)|, limit) ==>
      !Better(rankingBy, rows, m, n)
  }

  lemma TopIsFair(rankingBy: string, rows: seq<RunRow>, limit: int, round: real -> real)
    requires TrueTop(rankingBy, rows, Board(rankingBy, rows, limit, round))
    ensures CutIsFair(rankingBy, rows, limit, round)
  {
    BoardIsFront(rankingBy, rows, limit, round);
    forall n | n in Keys(ModelOf, rows) {
      RankExactly(rankingBy, rows, limit, round, n);
    }
  }

  lemma FairIsTop(rankingBy: string, rows: seq<RunRow>, limit: int, round: real -> real)
    requires Monotone(round) && CutIsFair(rankingBy, rows, limit, round)
    ensures TrueTop(rankingBy, rows, Board(rankingBy, rows, limit, round))
  {
    var board := Board(rankingBy, rows, limit, round);
    BoardIsFront(rankingBy, rows, limit, round);
    BoardIsTop(rankingBy, rows, limit, round);
    BetterIsTied(rankingBy, rows, limit, round);
    forall i: nat, m | i < |board| && LeftOff(board, rows, m) ensures !Better(rankingBy, rows, m, board[i].model) {
      PlacedAhead(rankingBy, rows, limit, round, i);
      RankExactly(rankingBy, rows, limit, round, m);
    }
  }

  /** With a monotone rounding the board is the true top exactly when of two models
      with equal scores, of which fewer are ahead of the one than the limit allows and
      not of the other, the other is not better by its unrounded value. */
  lemma TrueTopExactly(rankingBy: string, rows: seq<RunRow>, limit: int, round: real -> real)
    requires Monotone(round)
    ensures TrueTop(rankingBy, rows, Board(rankingBy, rows, limit, round)) <==>
              CutIsFair(rankingBy, rows, limit, round)
  {
    if TrueTop(rankingBy, rows, Board(rankingBy, rows, limit, round)) {
      TopIsFair(rankingBy, rows, limit, round);
    } else if CutIsFair(rankingBy, rows, limit, round) {
      FairIsTop(rankingBy, rows, limit, round);
    }
  }

  /** Two decimals. */
  function Cents(x: real): real {
    (x * 100.0 + 0.5).Floor as real / 100.0
  }

  lemma OneRun(run: RunRow)
    ensures AverageCost([run]) == run.cost
  {
    assert [run][..0] == [];
    assert SumReal(CostOf, [run]) == SumReal(CostOf, []) + run.cost;
  }

  lemma KeysOfTwo(a: RunRow, b: RunRow)
    requires a.model != b.model
    ensures Keys(ModelOf, [a] + [b]) == [a.model] + [b.model]
  {
    assert [a][..0] == [];
    assert Keys(ModelOf, [a]) == [] + [a.model];
    OneMore(ModelOf, [a], b);
  }

  lemma GroupsOfTwo(a: RunRow, b: RunRow)
    requires a.model != b.model
    ensures Group(ModelOf, [a] + [b], a.model) == [a] && Group(ModelOf, [a] + [b], b.model) == [b]
  {
    assert [a][..0] == [];
    assert Group(ModelOf, [a], a.model) == [] + [a] == [a] && Group(ModelOf, [a], b.model) == [] + [] == [];
    GroupSnoc(ModelOf, [a], b, a.model);
    GroupSnoc(ModelOf, [a], b, b.model);
    assert [] + [b] == [b];
  }

  lemma OneRunEach(a: RunRow, b: RunRow)
    requires a.model != b.model
    ensures Keys(ModelOf, [a, b]) == [a.model, b.model]
    ensures TrueValue("cost", [a, b], a.model) == a.cost && TrueValue("cost", [a, b], b.model) == b.cost
  {
    assert [a] + [b] == [a, b] && [a.model] + [b.model] == [a.model, b.model];
    KeysOfTwo(a, b);
    GroupsOfTwo(a, b);
    OneRun(a);
    OneRun(b);
  }

  lemma InOrder(keys: seq<string>, x: string, y: string)
    requires keys == [x, y] && x != y
    ensures Precedes(keys, x, y) && !Precedes(keys, y, x) && !Precedes(keys, x, x)
  {
    assert keys[0] == x && keys[1] == y;
  }

  lemma TwoTied(rankingBy: string, rows: seq<RunRow>, round: real -> real, x: string, y: string)
    requires Keys(ModelOf, rows) == [x, y] && x != y
    requires ModelScore(rankingBy, rows, round, x) == ModelScore(rankingBy, rows, round, y)
    ensures |AheadOf(rankingBy, rows, round, x)| == 0 && |AheadOf(rankingBy, rows, round, y)| >= 1
  {
    InOrder(Keys(ModelOf, rows), x, y);
    assert AheadOf(rankingBy, rows, round, x) == {};
    assert x in AheadOf(rankingBy, rows, round, y);
  }

  /** Of two models with equal scores the one seen first is a board of one place,
      whichever has the better value. */
  lemma FirstSeenWins(rankingBy: string, rows: seq<RunRow>, round: real -> real, x: string, y: string)
    requires Keys(ModelOf, rows) == [x, y] && x != y
    requires ModelScore(rankingBy, rows, round, x) == ModelScore(rankingBy, rows, round, y)
    ensures var board := Board(rankingBy, rows, 1, round);
            |board| == 1 && board[0].model == x && LeftOff(board, rows, y)
  {
    TwoTied(rankingBy, rows, round, x, y);
    BoardIsFront(rankingBy, rows, 1, round);
    RankExactly(rankingBy, rows, 1, round, x);
    RankExactly(rankingBy, rows, 1, round, y);
  }

  /** Two models whose costs both round to nothing: the dearer one, seen first, is
      the whole board. */
  lemma DearerModelOnTop()
    ensures var rows := [RunRow("a", "p", 0, 0.004, 1, 1), RunRow("b", "p", 0, 0.001, 1, 1)];
            var board := Board("cost", rows, 1, Cents);
            && |board| == 1 && board[0].model == "a" && LeftOff(board, rows, "b")
            && TrueValue("cost", rows, "b") < TrueValue("cost", rows, "a")
  {
    var a, b := RunRow("a", "p", 0, 0.004, 1, 1), RunRow("b", "p", 0, 0.001, 1, 1);
    assert a.model != b.model;
    assert Cents(0.004) == Cents(0.001);
    OneRunEach(a, b);
    FirstSeenWins("cost", [a, b], Cents, "a", "b");
  }
}
