/** `list.sort` as the analytics services use it: stable, by a real key. */
module Sorting {
  import opened Collections

  ghost predicate Ascending<T>(f: T -> real, s: seq<T>) {
    forall i, j :: 0 <= i < j < |s| ==> f(s[i]) <= f(s[j])
  }

  /** Puts an element behind all that are not larger. */
  function InsertBy<T>(f: T -> real, x: T, s: seq<T>): (r: seq<T>)
    ensures |r| == |s| + 1
  {
    if s == [] || f(s[|s| - 1]) <= f(x) then s + [x]
    else InsertBy(f, x, s[..|s| - 1]) + [s[|s| - 1]]
  }

  /** `sorted(s, key=f)` */
  function SortBy<T>(f: T -> real, s: seq<T>): seq<T> {
    if s == [] then [] else InsertBy(f, s[|s| - 1], SortBy(f, s[..|s| - 1]))
  }

  lemma {:induction false} InsertPermutes<T>(f: T -> real, x: T, s: seq<T>)
    ensures multiset(InsertBy(f, x, s)) == multiset(s) + multiset{x}
  {
    if s != [] && f(s[|s| - 1]) > f(x) {
      InsertPermutes(f, x, s[..|s| - 1]);
      assert s == s[..|s| - 1] + [s[|s| - 1]];
    }
  }

  lemma {:induction false} InsertAscends<T>(f: T -> real, x: T, s: seq<T>)
    requires Ascending(f, s)
    ensures Ascending(f, InsertBy(f, x, s))
    ensures forall y :: y in InsertBy(f, x, s) ==> y == x || y in s
  {
    if s != [] && f(s[|s| - 1]) > f(x) {
      var init := s[..|s| - 1];
      InsertAscends(f, x, init);
      forall y | y in InsertBy(f, x, init) ensures f(y) <= f(s[|s| - 1]) {
        if y != x { assert y in init; }
      }
    }
  }

  /** Having one key value. */
  function Valued<T>(f: T -> real, v: real): T -> bool {
    x => f(x) == v
  }

  lemma FilterSnoc<T>(p: T -> bool, s: seq<T>, x: T)
    ensures Filter(p, s + [x]) == Filter(p, s) + if p(x) then [x] else []
  {
    assert (s + [x])[..|s + [x]| - 1] == s;
  }

  /** Inserting among the elements with one key value appends. */
  lemma {:induction false} InsertStable<T>(f: T -> real, x: T, s: seq<T>, v: real)
    ensures Filter(Valued(f, v), InsertBy(f, x, s)) == Filter(Valued(f, v), s) + if f(x) == v then [x] else []
  {
    var p := Valued(f, v);
    if s == [] || f(s[|s| - 1]) <= f(x) {
      FilterSnoc(p, s, x);
    } else {
      var n := |s| - 1;
      var tail := if p(s[n]) then [s[n]] else [];
      InsertStable(f, x, s[..n], v);
      FilterSnoc(p, InsertBy(f, x, s[..n]), s[n]);
      FilterSnoc(p, s[..n], s[n]);
      assert s[..n] + [s[n]] == s;
      assert tail == [] || f(x) != v;
    }
  }

  /** A sort keeps the elements and puts them in ascending order. */
  lemma {:induction false} SortSorts<T>(f: T -> real, s: seq<T>)
    ensures Ascending(f, SortBy(f, s))
    ensures multiset(SortBy(f, s)) == multiset(s)
    ensures |SortBy(f, s)| == |s|
  {
    if s == [] {
    } else {
      var n := |s| - 1;
      SortSorts(f, s[..n]);
      InsertPermutes(f, s[n], SortBy(f, s[..n]));
      InsertAscends(f, s[n], SortBy(f, s[..n]));
      assert s == s[..n] + [s[n]];
    }
  }

  /** It is stable: elements with equal keys stay in their original order. */
  lemma {:induction false} SortIsStable<T>(f: T -> real, s: seq<T>, v: real)
    ensures Filter(Valued(f, v), SortBy(f, s)) == Filter(Valued(f, v), s)
  {
    if s == [] {
    } else {
      var n := |s| - 1;
      SortIsStable(f, s[..n], v);
      InsertStable(f, s[n], SortBy(f, s[..n]), v);
      assert s == s[..n] + [s[n]];
      FilterSnoc(Valued(f, v), s[..n], s[n]);
    }
  }

  /** `x` occurs somewhere before `y`. */
  ghost predicate Precedes<T>(s: seq<T>, x: T, y: T) {
    exists i, j :: 0 <= i < j < |s| && s[i] == x && s[j] == y
  }

  lemma PrecedesSnoc<T>(s: seq<T>, z: T, x: T, y: T)
    ensures Precedes(s + [z], x, y) <==> Precedes(s, x, y) || (z == y && x in s)
  {
    var more := s + [z];
    if Precedes(more, x, y) {
      var i, j :| 0 <= i < j < |more| && more[i] == x && more[j] == y;
      assert s[i] == x;
      if j < |s| { assert s[j] == y; }
    }
    if Precedes(s, x, y) {
      var i, j :| 0 <= i < j < |s| && s[i] == x && s[j] == y;
      assert more[i] == x && more[j] == y;
    }
    if z == y && x in s {
      var i :| 0 <= i < |s| && s[i] == x;
      assert more[i] == x && more[|s|] == y;
    }
  }

  /** A filter keeps the order of what it keeps. */
  lemma {:induction false} FilterPrecedes<T>(p: T -> bool, s: seq<T>, x: T, y: T)
    requires p(x) && p(y)
    ensures Precedes(Filter(p, s), x, y) <==> Precedes(s, x, y)
  {
    if s == [] {
    } else {
      var n := |s| - 1;
      FilterPrecedes(p, s[..n], x, y);
      FilterMembers(p, s[..n]);
      assert s == s[..n] + [s[n]];
      PrecedesSnoc(s[..n], s[n], x, y);
      PrecedesSnoc(Filter(p, s[..n]), s[n], x, y);
      assert Filter(p, s[..n]) + [] == Filter(p, s[..n]);
    }
  }

  /** Of two elements with equal keys, the one sorted first came first. */
  lemma SortKeepsTies<T>(f: T -> real, s: seq<T>, x: T, y: T)
    requires f(x) == f(y)
    ensures Precedes(SortBy(f, s), x, y) <==> Precedes(s, x, y)
  {
    SortIsStable(f, s, f(x));
    FilterPrecedes(Valued(f, f(x)), s, x, y);
    FilterPrecedes(Valued(f, f(x)), SortBy(f, s), x, y);
  }

  lemma {:induction false} DistinctCount<T>(s: seq<T>, x: T)
    requires forall i, j :: 0 <= i < j < |s| ==> s[i] != s[j]
    ensures multiset(s)[x] <= 1
  {
    if s == [] {
    } else {
      var n := |s| - 1;
      DistinctCount(s[..n], x);
      assert s == s[..n] + [s[n]];
      if x == s[n] { assert forall i :: 0 <= i < n ==> s[..n][i] != x; }
    }
  }

  /** Rearranging distinct elements leaves them distinct. */
  lemma DistinctPermutation<T>(s: seq<T>, t: seq<T>)
    requires multiset(s) == multiset(t) && forall i, j :: 0 <= i < j < |s| ==> s[i] != s[j]
    ensures forall i, j :: 0 <= i < j < |t| ==> t[i] != t[j]
  {
    forall i, j | 0 <= i < j < |t| ensures t[i] != t[j] {
      DistinctCount(s, t[i]);
      assert t == t[..i] + [t[i]] + t[i + 1..j] + [t[j]] + t[j + 1..];
    }
  }

  lemma SortKeepsMembers<T>(f: T -> real, s: seq<T>)
    ensures forall x :: x in SortBy(f, s) <==> x in s
  {
    SortSorts(f, s);
    assert forall x :: x in SortBy(f, s) <==> x in multiset(SortBy(f, s));
    assert forall x :: x in s <==> x in multiset(s);
  }

  lemma SortedPlace<T>(f: T -> real, s: seq<T>, x: T) returns (i: nat)
    requires x in s
    ensures i < |SortBy(f, s)| && SortBy(f, s)[i] == x
  {
    SortKeepsMembers(f, s);
    i :| 0 <= i < |SortBy(f, s)| && SortBy(f, s)[i] == x;
  }

  lemma {:induction false} InsertSum<T>(f: T -> real, x: T, s: seq<T>, g: T -> real)
    ensures SumReal(g, InsertBy(f, x, s)) == SumReal(g, s) + g(x)
  {
    if s == [] || f(s[|s| - 1]) <= f(x) {
      assert (s + [x])[..|s|] == s;
    } else {
      var n := |s| - 1;
      InsertSum(f, x, s[..n], g);
      var r := InsertBy(f, x, s);
      assert r[..|r| - 1] == InsertBy(f, x, s[..n]);
    }
  }

  /** Sorting does not change a sum. */
  lemma {:induction false} SortSum<T>(f: T -> real, s: seq<T>, g: T -> real)
    ensures SumReal(g, SortBy(f, s)) == SumReal(g, s)
  {
    if s == [] {
    } else {
      SortSum(f, s[..|s| - 1], g);
      InsertSum(f, s[|s| - 1], SortBy(f, s[..|s| - 1]), g);
    }
  }

  function Without<T>(s: seq<T>, i: nat): (r: seq<T>)
    requires i < |s|
    ensures |r| == |s| - 1
  {
    s[..i] + s[i + 1..]
  }

  lemma MultisetWithout<T>(s: seq<T>, i: nat)
    requires i < |s|
    ensures multiset(Without(s, i)) == multiset(s) - multiset{s[i]}
  {
    assert s == s[..i] + [s[i]] + s[i + 1..];
  }

  lemma Rejoin<T>(s: seq<T>, i: nat)
    requires i < |s|
    ensures s[..i] + [s[i]] + s[i + 1..] == s
  {
  }

  lemma SumWithout<T>(f: T -> int, a: seq<T>, x: T, b: seq<T>)
    ensures Sum(f, a + [x] + b) == Sum(f, a + b) + f(x)
  {
    SumConcat(f, a + [x], b);
    SumConcat(f, a, b);
    assert (a + [x])[..|a|] == a;
  }

  /** Taking out one element. */
  lemma WithoutOne<T>(f: T -> int, s: seq<T>, i: nat)
    requires i < |s|
    ensures Sum(f, s) == Sum(f, Without(s, i)) + f(s[i])
  {
    SumWithout(f, s[..i], s[i], s[i + 1..]);
    Rejoin(s, i);
  }

  lemma FindEqual<T>(s: seq<T>, t: seq<T>) returns (i: nat)
    requires s != [] && multiset(s) == multiset(t)
    ensures i < |t| && t[i] == s[0]
  {
    assert s[0] in multiset(t);
    i :| 0 <= i < |t| && t[i] == s[0];
  }

  /** A sum depends only on the elements, not on their order. */
  lemma {:induction false} SumPermutation<T>(f: T -> int, s: seq<T>, t: seq<T>)
    requires multiset(s) == multiset(t)
    ensures Sum(f, s) == Sum(f, t)
    decreases |s|
  {
    if s == [] {
      assert |multiset(t)| == 0;
    } else {
      var i := FindEqual(s, t);
      MultisetWithout(s, 0);
      MultisetWithout(t, i);
      WithoutOne(f, s, 0);
      WithoutOne(f, t, i);
      SumPermutation(f, Without(s, 0), Without(t, i));
    }
  }

  function Indicator<T>(p: T -> bool): T -> int {
    x => if p(x) then 1 else 0
  }

  lemma {:induction false} FilterCount<T>(p: T -> bool, s: seq<T>)
    ensures |Filter(p, s)| == Sum(Indicator(p), s)
  {
    if s == [] {
    } else {
      FilterCount(p, s[..|s| - 1]);
    }
  }

  /** Counting does not depend on the order. */
  lemma CountPermutation<T>(p: T -> bool, s: seq<T>, t: seq<T>)
    requires multiset(s) == multiset(t)
    ensures |Filter(p, s)| == |Filter(p, t)|
  {
    FilterCount(p, s);
    FilterCount(p, t);
    SumPermutation(Indicator(p), s, t);
  }

  /** Filters that take everything, or nothing. */
  lemma {:induction false} FilterExtremes<T>(p: T -> bool, s: seq<T>)
    ensures (forall x :: x in s ==> p(x)) ==> Filter(p, s) == s
    ensures (forall x :: x in s ==> !p(x)) ==> Filter(p, s) == []
    ensures |Filter(p, s)| <= |s|
  {
    if s == [] {
    } else {
      var n := |s| - 1;
      assert forall x :: x in s[..n] ==> x in s;
      FilterExtremes(p, s[..n]);
      assert s == s[..n] + [s[n]] && s[n] in s;
    }
  }
}
