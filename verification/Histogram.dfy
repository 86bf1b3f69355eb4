/** Metric score distributions
    (backend/app/analytics/services/experiment_analytics.py), before display
    rounding. */
module Histogram {
  import opened Collections
  import opened Reals
  import opened RunRows
  import opened Sorting

  datatype Distribution = Distribution(edges: seq<real>, counts: seq<nat>, total: nat)

  // ----- Extremes -----

  function MinOf(s: seq<real>): (m: real)
    requires s != []
    ensures m in s && forall x :: x in s ==> m <= x
  {
    if |s| == 1 then s[0]
    else
      var rest := MinOf(s[1..]);
      assert forall x :: x in s <==> x == s[0] || x in s[1..];
      if s[0] <= rest then s[0] else rest
  }

  function MaxOf(s: seq<real>): (m: real)
    requires s != []
    ensures m in s && forall x :: x in s ==> x <= m
  {
    if |s| == 1 then s[0]
    else
      var rest := MaxOf(s[1..]);
      assert forall x :: x in s <==> x == s[0] || x in s[1..];
      if s[0] >= rest then s[0] else rest
  }

  // ----- Bins -----

  /** The equal-width bins of a range. */
  datatype Bins = Bins(low: real, width: real, number: nat)
  {
    ghost predicate Valid() {
      width > 0.0 && number >= 1
    }

    function Edge(i: nat): real {
      low + i as real * width
    }

    /** `min(int((score - min_score) / bin_width), bins - 1)` */
    function IndexOf(x: real): int
      requires Valid() && x >= low
    {
      var q := ((x - low) / width).Floor;
      if q < number - 1 then q else number - 1
    }

    /** Half-open bins, the last one closed. */
    ghost predicate Contains(i: nat, x: real) {
      Edge(i) <= x && (i < number - 1 ==> x < Edge(i + 1))
    }
  }

  /** How an edge compares with a score, in terms of the quotient. */
  lemma EdgeOrder(b: Bins, x: real, i: nat)
    requires b.Valid()
    ensures b.Edge(i) <= x <==> i <= ((x - b.low) / b.width).Floor
  {
    var q, e := (x - b.low) / b.width, i as real;
    assert q * b.width == x - b.low;
    MulOrder(e, q, b.width);
    assert b.Edge(i) == b.low + e * b.width;
    FloorOrder(q, i);
  }

  /** The index the code computes is in range and is that of the one bin that
      contains the score. */
  lemma IndexExactly(b: Bins, x: real, i: nat)
    requires b.Valid() && x >= b.low && i < b.number
    ensures 0 <= b.IndexOf(x) < b.number
    ensures b.IndexOf(x) == i <==> b.Contains(i, x)
  {
    EdgeOrder(b, x, 0);
    EdgeOrder(b, x, i);
    EdgeOrder(b, x, i + 1);
    assert b.Edge(0) == b.low;
  }

  // ----- Counting -----

  function InBin(b: Bins, i: nat): real -> bool
    requires b.Valid()
  {
    x => x >= b.low && b.IndexOf(x) == i
  }

  /** How many of the scores fall into each bin. */
  function Counts(b: Bins, scores: seq<real>): (r: seq<nat>)
    requires b.Valid()
    ensures |r| == b.number && forall i :: 0 <= i < b.number ==> r[i] == |Filter(InBin(b, i), scores)|
  {
    seq(b.number, i requires 0 <= i < b.number => |Filter(InBin(b, i), scores)|)
  }

  function AsInt(n: nat): int { n }

  lemma {:induction false} SumUpdate(s: seq<nat>, i: nat, x: nat)
    requires i < |s|
    ensures Sum(AsInt, s[i := x]) == Sum(AsInt, s) - s[i] + x
  {
    var n := |s| - 1;
    var t := s[i := x];
    if i == n {
      assert t[..n] == s[..n];
    } else {
      assert t[..n] == s[..n][i := x];
      SumUpdate(s[..n], i, x);
    }
  }

  lemma {:induction false} SumZeros(s: seq<nat>)
    requires forall i :: 0 <= i < |s| ==> s[i] == 0
    ensures Sum(AsInt, s) == 0
  {
    if s == [] {
    } else {
      SumZeros(s[..|s| - 1]);
    }
  }

  /** One more score adds one to its bin. */
  lemma CountsSnoc(b: Bins, scores: seq<real>, x: real)
    requires b.Valid() && x >= b.low
    ensures 0 <= b.IndexOf(x) < b.number
    ensures Counts(b, scores + [x]) == Counts(b, scores)[b.IndexOf(x) := Counts(b, scores)[b.IndexOf(x)] + 1]
  {
    IndexExactly(b, x, 0);
    forall i | 0 <= i < b.number
      ensures |Filter(InBin(b, i), scores + [x])|
           == |Filter(InBin(b, i), scores)| + if b.IndexOf(x) == i then 1 else 0
    {
      FilterSnoc(InBin(b, i), scores, x);
    }
  }

  /** Every score is counted once. */
  lemma {:induction false} CountsConserve(b: Bins, scores: seq<real>)
    requires b.Valid() && forall x :: x in scores ==> x >= b.low
    ensures Sum(AsInt, Counts(b, scores)) == |scores|
  {
    if scores == [] {
      SumZeros(Counts(b, scores));
    } else {
      var n := |scores| - 1;
      assert scores == scores[..n] + [scores[n]] && scores[n] in scores;
      assert forall x :: x in scores[..n] ==> x in scores;
      CountsConserve(b, scores[..n]);
      CountsSnoc(b, scores[..n], scores[n]);
      SumUpdate(Counts(b, scores[..n]), b.IndexOf(scores[n]),
                Counts(b, scores[..n])[b.IndexOf(scores[n])] + 1);
    }
  }

  // ----- The distribution -----

  function BinsOf(scores: seq<real>, number: nat): Bins
    requires scores != [] && number >= 1
  {
    Bins(MinOf(scores), (MaxOf(scores) - MinOf(scores)) / number as real, number)
  }

  lemma BinsCover(scores: seq<real>, number: nat)
    requires scores != [] && number >= 1 && MinOf(scores) != MaxOf(scores)
    ensures BinsOf(scores, number).Valid()
    ensures BinsOf(scores, number).Edge(0) == MinOf(scores)
    ensures BinsOf(scores, number).Edge(number) == MaxOf(scores)
  {
    var span := MaxOf(scores) - MinOf(scores);
    assert MinOf(scores) <= MaxOf(scores);
    assert span / number as real * number as real == span;
  }

  function DistributionOf(scores: seq<real>, number: nat): Distribution
    requires number >= 1
  {
    if scores == [] then Distribution([], [], 0)
    else if MinOf(scores) == MaxOf(scores) then Distribution([MinOf(scores)], [|scores|], |scores|)
    else
      BinsCover(scores, number);
      var b := BinsOf(scores, number);
      Distribution(seq(number + 1, i requires 0 <= i < number + 1 => b.Edge(i)), Counts(b, scores), |scores|)
  }

  /** Counts in place: the loop adds one to the bin of each score. */
  method CountInto(b: Bins, scores: seq<real>, binCounts: array<nat>)
    requires b.Valid() && binCounts.Length == b.number && forall x :: x in scores ==> x >= b.low
    requires forall i :: 0 <= i < b.number ==> binCounts[i] == 0
    modifies binCounts
    ensures binCounts[..] == Counts(b, scores)
  {
    assert binCounts[..] == Counts(b, []);
    for k := 0 to |scores|
      invariant binCounts[..] == Counts(b, scores[..k])
    {
      assert scores[k] in scores && scores[..k + 1] == scores[..k] + [scores[k]];
      CountsSnoc(b, scores[..k], scores[k]);
      var idx := b.IndexOf(scores[k]);
      binCounts[idx] := binCounts[idx] + 1;
    }
    assert scores[..|scores|] == scores;
  }

  function ScoreOf(r: MetricRow): seq<real> {
    if r.error.None? then [r.score] else []
  }

  method GetDistribution(results: seq<MetricRow>, number: nat) returns (d: Distribution)
    requires number >= 1
    ensures d == DistributionOf(FlatMap(ScoreOf, results), number)
  {
    var scores: seq<real> := [];
    for i := 0 to |results|
      invariant scores == FlatMap(ScoreOf, results[..i])
    {
      assert results[..i + 1][..i] == results[..i];
      scores := scores + ScoreOf(results[i]);
    }
    assert results[..|results|] == results;
    if scores == [] {
      return Distribution([], [], 0);
    }
    var minScore, maxScore := MinOf(scores), MaxOf(scores);
    if minScore == maxScore {
      return Distribution([minScore], [|scores|], |scores|);
    }
    BinsCover(scores, number);
    var b := Bins(minScore, (maxScore - minScore) / number as real, number);
    var edges := seq(number + 1, i requires 0 <= i < number + 1 => b.Edge(i));
    var binCounts := new nat[number](_ => 0);
    CountInto(b, scores, binCounts);
    d := Distribution(edges, binCounts[..], |scores|);
  }

  /** `low` and `high` are the extremes of some scores. */
  ghost predicate Spans(scores: seq<real>, low: real, high: real) {
    low in scores && high in scores && forall x :: x in scores ==> low <= x <= high
  }

  /** A score lies between two neighbouring edges: at or above the lower one, and below
      the upper one unless that is the last. */
  ghost predicate Between(edges: seq<real>, i: nat, x: real)
    requires i + 1 < |edges|
  {
    edges[i] <= x && (if i + 2 < |edges| then x < edges[i + 1] else x <= edges[i + 1])
  }

  lemma EdgesApart(b: Bins, i: nat)
    ensures b.Edge(i + 1) - b.Edge(i) == b.width
  {
    var x := i as real;
    assert (i + 1) as real == x + 1.0;
    assert (x + 1.0) * b.width == x * b.width + b.width;
  }

  lemma EdgesSpaced(scores: seq<real>, number: nat, i: nat)
    requires number >= 1 && scores != [] && MinOf(scores) != MaxOf(scores) && i < number
    ensures var d := DistributionOf(scores, number);
            |d.edges| == number + 1
            && d.edges[i + 1] - d.edges[i] == (MaxOf(scores) - MinOf(scores)) / number as real
  {
    EdgesApart(BinsOf(scores, number), i);
  }

  lemma BetweenIsContained(scores: seq<real>, number: nat, i: nat, x: real)
    requires number >= 1 && scores != [] && MinOf(scores) != MaxOf(scores) && i < number && x in scores
    ensures |DistributionOf(scores, number).edges| == number + 1
    ensures Between(DistributionOf(scores, number).edges, i, x) <==> BinsOf(scores, number).Contains(i, x)
  {
    BinsCover(scores, number);
  }

  /** A histogram of scores that are not all equal has evenly spaced edges from the
      lowest score to the highest; every score lies between two of them, and the counts
      add up to the number of scores. */
  lemma HistogramConserves(scores: seq<real>, number: nat, low: real, high: real)
    requires number >= 1 && Spans(scores, low, high) && low < high
    ensures var d := DistributionOf(scores, number);
            && |d.counts| == number && |d.edges| == number + 1
            && d.edges[0] == low && d.edges[number] == high
            && (forall i :: 0 <= i < number ==> d.edges[i + 1] - d.edges[i] == (high - low) / number as real)
            && Sum(AsInt, d.counts) == |scores| == d.total
            && forall x :: x in scores ==> exists i: nat :: i < number && Between(d.edges, i, x)
  {
    var b, d := BinsOf(scores, number), DistributionOf(scores, number);
    BinsCover(scores, number);
    CountsConserve(b, scores);
    forall i | 0 <= i < number ensures d.edges[i + 1] - d.edges[i] == (high - low) / number as real {
      EdgesSpaced(scores, number, i);
    }
    forall x | x in scores ensures exists i: nat :: i < number && Between(d.edges, i, x) {
      IndexExactly(b, x, 0);
      IndexExactly(b, x, b.IndexOf(x));
      BetweenIsContained(scores, number, b.IndexOf(x), x);
    }
  }

  /** Equal scores are one count at their value, and no scores are none. */
  lemma HistogramOfEqual(scores: seq<real>, number: nat, x: real)
    requires number >= 1 && forall y :: y in scores ==> y == x
    ensures DistributionOf(scores, number)
         == if scores == [] then Distribution([], [], 0) else Distribution([x], [|scores|], |scores|)
  {
  }

  lemma SameCount(b: Bins, scores: seq<real>, i: nat, p: real -> bool)
    requires b.Valid() && i < b.number && forall x :: x in scores ==> x >= b.low
    requires forall x :: x in scores ==> (p(x) <==> b.Contains(i, x))
    ensures Counts(b, scores)[i] == |Filter(p, scores)|
  {
    forall k | 0 <= k < |scores| ensures InBin(b, i)(scores[k]) == p(scores[k]) {
      assert scores[k] in scores;
      IndexExactly(b, scores[k], i);
    }
    FilterSame(InBin(b, i), p, scores);
  }

  /** Each count is the number of scores between its two edges. */
  lemma HistogramCounts(scores: seq<real>, number: nat, i: nat, p: real -> bool)
    requires number >= 1 && scores != [] && MinOf(scores) != MaxOf(scores) && i < number
    requires |DistributionOf(scores, number).edges| == number + 1
    requires forall x :: p(x) <==> Between(DistributionOf(scores, number).edges, i, x)
    ensures DistributionOf(scores, number).counts[i] == |Filter(p, scores)|
  {
    BinsCover(scores, number);
    forall x | x in scores ensures p(x) <==> BinsOf(scores, number).Contains(i, x) {
      BetweenIsContained(scores, number, i, x);
    }
    SameCount(BinsOf(scores, number), scores, i, p);
  }

  /** The scores of a distribution are those of the rows without an error, in order. */
  lemma {:induction false} ScoresOfRows(results: seq<MetricRow>)
    ensures FlatMap(ScoreOf, results)
         == Map((r: MetricRow) => r.score, Filter((r: MetricRow) => r.error.None?, results))
  {
    if results == [] {
    } else {
      var n := |results| - 1;
      ScoresOfRows(results[..n]);
      var before := Filter((r: MetricRow) => r.error.None?, results[..n]);
      assert Filter((r: MetricRow) => r.error.None?, results)
          == before + if results[n].error.None? then [results[n]] else [];
    }
  }

  lemma ExtremesPermuted(s: seq<real>, t: seq<real>)
    requires s != [] && t != [] && multiset(s) == multiset(t)
    ensures MinOf(s) == MinOf(t) && MaxOf(s) == MaxOf(t)
  {
    assert forall x :: x in s <==> x in multiset(s);
    assert forall x :: x in t <==> x in multiset(t);
    assert MinOf(s) in t && MinOf(t) in s && MaxOf(s) in t && MaxOf(t) in s;
  }

  lemma CountsPermuted(b: Bins, s: seq<real>, t: seq<real>)
    requires b.Valid() && multiset(s) == multiset(t)
    ensures Counts(b, s) == Counts(b, t)
  {
    forall i | 0 <= i < b.number ensures Counts(b, s)[i] == Counts(b, t)[i] {
      CountPermutation(InBin(b, i), s, t);
    }
  }

  /** The distribution does not depend on the order of the scores. */
  lemma HistogramOrderIrrelevant(s: seq<real>, t: seq<real>, number: nat)
    requires number >= 1 && multiset(s) == multiset(t)
    ensures DistributionOf(s, number) == DistributionOf(t, number)
  {
    assert |multiset(s)| == |s| && |multiset(t)| == |t|;
    if s != [] {
      ExtremesPermuted(s, t);
      if MinOf(s) != MaxOf(s) {
        BinsCover(s, number);
        CountsPermuted(BinsOf(s, number), s, t);
      }
    }
  }
}
