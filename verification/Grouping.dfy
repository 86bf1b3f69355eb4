/** Grouping rows by a name, as a dictionary filled in a loop does: keys in the
    order first seen, each with the rows that carry it. */
module Grouping {
  import opened Collections

  function Keys<T>(key: T -> string, rows: seq<T>): seq<string> {
    if rows == [] then []
    else
      var before := Keys(key, rows[..|rows| - 1]);
      if key(rows[|rows| - 1]) in before then before else before + [key(rows[|rows| - 1])]
  }

  /** The rows with one key, in order. */
  function Group<T>(key: T -> string, rows: seq<T>, k: string): seq<T> {
    if rows == [] then []
    else Group(key, rows[..|rows| - 1], k) + if key(rows[|rows| - 1]) == k then [rows[|rows| - 1]] else []
  }

  ghost predicate Distinct(keys: seq<string>) {
    forall i, j :: 0 <= i < j < |keys| ==> keys[i] != keys[j]
  }

  lemma {:induction false} DistinctSize(keys: seq<string>)
    requires Distinct(keys)
    ensures |set k | k in keys| == |keys|
  {
    if keys == [] {
    } else {
      var n := |keys| - 1;
      DistinctSize(keys[..n]);
      assert (set k | k in keys) == (set k | k in keys[..n]) + {keys[n]};
    }
  }

  lemma {:induction false} GroupMembers<T>(key: T -> string, rows: seq<T>, k: string)
    ensures forall r :: r in Group(key, rows, k) <==> r in rows && key(r) == k
  {
    if rows == [] {
    } else {
      var n := |rows| - 1;
      GroupMembers(key, rows[..n], k);
      assert rows == rows[..n] + [rows[n]];
    }
  }

  lemma {:induction false} KeysOfGroups<T>(key: T -> string, rows: seq<T>)
    ensures Distinct(Keys(key, rows))
    ensures forall k :: k in Keys(key, rows) <==> Group(key, rows, k) != []
  {
    if rows == [] {
    } else {
      KeysOfGroups(key, rows[..|rows| - 1]);
    }
  }

  /** The key is that of the row at `p`, and of none before. */
  ghost predicate FirstAt<T>(key: T -> string, rows: seq<T>, k: string, p: nat) {
    p < |rows| && key(rows[p]) == k && forall q :: 0 <= q < p ==> key(rows[q]) != k
  }

  /** Keys stand in the order in which they first occur. */
  ghost predicate FirstBefore<T>(key: T -> string, rows: seq<T>, k: string, l: string) {
    exists p: nat, q: nat :: p < q && FirstAt(key, rows, k, p) && FirstAt(key, rows, l, q)
  }

  lemma FirstStays<T>(key: T -> string, rows: seq<T>, k: string, p: nat)
    requires rows != [] && FirstAt(key, rows[..|rows| - 1], k, p)
    ensures FirstAt(key, rows, k, p)
  {
    assert forall q :: 0 <= q < |rows| - 1 ==> rows[..|rows| - 1][q] == rows[q];
  }

  lemma {:induction false} FirstOf<T>(key: T -> string, rows: seq<T>, k: string) returns (p: nat)
    requires k in Keys(key, rows)
    ensures FirstAt(key, rows, k, p)
  {
    var n := |rows| - 1;
    if k in Keys(key, rows[..n]) {
      p := FirstOf(key, rows[..n], k);
      FirstStays(key, rows, k, p);
    } else {
      p := n;
      KeysDistinct(key, rows[..n]);
      forall q | 0 <= q < n ensures key(rows[q]) != k { assert rows[q] == rows[..n][q] && rows[..n][q] in rows[..n]; }
    }
  }

  lemma {:induction false} KeysInOrder<T>(key: T -> string, rows: seq<T>, i: nat, j: nat)
    requires i < j < |Keys(key, rows)|
    ensures FirstBefore(key, rows, Keys(key, rows)[i], Keys(key, rows)[j])
  {
    var n, keys := |rows| - 1, Keys(key, rows);
    var before := Keys(key, rows[..n]);
    if j < |before| {
      KeysInOrder(key, rows[..n], i, j);
      var p: nat, q: nat :| p < q && FirstAt(key, rows[..n], before[i], p) && FirstAt(key, rows[..n], before[j], q);
      assert keys[i] == before[i] && keys[j] == before[j];
      FirstStays(key, rows, keys[i], p);
      FirstStays(key, rows, keys[j], q);
    } else {
      assert keys[i] == before[i];
      var p := FirstOf(key, rows[..n], keys[i]);
      FirstStays(key, rows, keys[i], p);
      var q := FirstOf(key, rows, keys[j]);
      KeysDistinct(key, rows[..n]);
    }
  }

  /** The keys are those of the rows, each once; a group is not empty and holds
      exactly the rows with its key. */
  lemma KeysDistinct<T>(key: T -> string, rows: seq<T>)
    ensures Distinct(Keys(key, rows))
    ensures forall k :: k in Keys(key, rows) <==> exists r :: r in rows && key(r) == k
    ensures forall k :: k in Keys(key, rows) <==> Group(key, rows, k) != []
    ensures forall k, r :: r in Group(key, rows, k) <==> r in rows && key(r) == k
  {
    KeysOfGroups(key, rows);
    forall k ensures forall r :: r in Group(key, rows, k) <==> r in rows && key(r) == k {
      GroupMembers(key, rows, k);
    }
    forall k ensures k in Keys(key, rows) <==> exists r :: r in rows && key(r) == k {
      var group := Group(key, rows, k);
      if group != [] { assert group[0] in group; }
    }
  }

  /** The sum of a column over the groups of some keys. */
  function GroupsTotal<T>(f: T -> real, key: T -> string, rows: seq<T>, keys: seq<string>): real {
    if keys == [] then 0.0
    else GroupsTotal(f, key, rows, keys[..|keys| - 1]) + SumReal(f, Group(key, rows, keys[|keys| - 1]))
  }

  lemma {:induction false} OneMoreRow<T>(f: T -> real, key: T -> string, rows: seq<T>, keys: seq<string>)
    requires rows != [] && Distinct(keys)
    ensures GroupsTotal(f, key, rows, keys)
         == GroupsTotal(f, key, rows[..|rows| - 1], keys)
          + if key(rows[|rows| - 1]) in keys then f(rows[|rows| - 1]) else 0.0
  {
    if keys == [] {
    } else {
      var m, n := |keys| - 1, |rows| - 1;
      OneMoreRow(f, key, rows, keys[..m]);
      assert keys == keys[..m] + [keys[m]];
      var before := Group(key, rows[..n], keys[m]);
      if key(rows[n]) == keys[m] {
        assert Group(key, rows, keys[m])[..|before|] == before;
      } else {
        assert Group(key, rows, keys[m]) == before;
      }
    }
  }

  lemma {:induction false} NoRows<T>(f: T -> real, key: T -> string, keys: seq<string>)
    ensures GroupsTotal(f, key, [], keys) == 0.0
  {
    if keys == [] {
    } else {
      NoRows(f, key, keys[..|keys| - 1]);
    }
  }

  /** Group-by conserves: over all groups, a column adds up to its total. */
  lemma {:induction false} GroupsConserve<T>(f: T -> real, key: T -> string, rows: seq<T>, keys: seq<string>)
    requires Distinct(keys) && forall r :: r in rows ==> key(r) in keys
    ensures GroupsTotal(f, key, rows, keys) == SumReal(f, rows)
  {
    if rows == [] {
      NoRows(f, key, keys);
    } else {
      var n := |rows| - 1;
      assert rows == rows[..n] + [rows[n]];
      assert rows[n] in rows;
      OneMoreRow(f, key, rows, keys);
      GroupsConserve(f, key, rows[..n], keys);
    }
  }

  lemma OneMore<T>(key: T -> string, rows: seq<T>, row: T)
    ensures Keys(key, rows + [row]) == Keys(key, rows) + if key(row) in Keys(key, rows) then [] else [key(row)]
  {
    var more := rows + [row];
    assert more[..|more| - 1] == rows;
  }

  lemma GroupSnoc<T>(key: T -> string, rows: seq<T>, row: T, k: string)
    ensures Group(key, rows + [row], k) == if key(row) == k then Group(key, rows, k) + [row] else Group(key, rows, k)
  {
    assert (rows + [row])[..|rows|] == rows;
    assert Group(key, rows, k) + [] == Group(key, rows, k);
  }

  function Fold<T, A>(step: (A, T) -> A, zero: A, rows: seq<T>): A {
    if rows == [] then zero else step(Fold(step, zero, rows[..|rows| - 1]), rows[|rows| - 1])
  }

  lemma FoldSnoc<T, A>(step: (A, T) -> A, zero: A, rows: seq<T>, row: T)
    ensures Fold(step, zero, rows + [row]) == step(Fold(step, zero, rows), row)
  {
    assert (rows + [row])[..|rows|] == rows;
  }

  /** The dictionary holds, for each key of the rows, the fold of its group. */
  ghost predicate Holds<T, A>(key: T -> string, step: (A, T) -> A, zero: A, rows: seq<T>,
                              names: seq<string>, data: map<string, A>)
  {
    && names == Keys(key, rows)
    && (forall k :: k in data <==> k in names)
    && forall k :: k in names ==> data[k] == Fold(step, zero, Group(key, rows, k))
  }

  /** What one more row changes in the fold of one group. */
  lemma GroupFold<T, A>(key: T -> string, step: (A, T) -> A, zero: A, rows: seq<T>, row: T, k: string)
    ensures var before := Fold(step, zero, Group(key, rows, k));
            Fold(step, zero, Group(key, rows + [row], k)) == if key(row) == k then step(before, row) else before
    ensures k !in Keys(key, rows) ==> Fold(step, zero, Group(key, rows, k)) == zero
  {
    var more := rows + [row];
    var group := Group(key, rows, k);
    assert more[..|more| - 1] == rows;
    assert Group(key, more, k) == group + if key(row) == k then [row] else [];
    FoldSnoc(step, zero, group, row);
    assert group + [] == group;
    KeysDistinct(key, rows);
  }

  lemma HoldsOneMore<T, A>(key: T -> string, step: (A, T) -> A, zero: A, rows: seq<T>,
                           names: seq<string>, data: map<string, A>, row: T)
    requires Holds(key, step, zero, rows, names, data)
    ensures var k := key(row);
            Holds(key, step, zero, rows + [row], if k in data then names else names + [k],
                  data[k := step(if k in data then data[k] else zero, row)])
  {
    var k := key(row);
    var after := if k in data then names else names + [k];
    var more := data[k := step(if k in data then data[k] else zero, row)];
    OneMore(key, rows, row);
    assert after == Keys(key, rows + [row]);
    forall name | name in after ensures more[name] == Fold(step, zero, Group(key, rows + [row], name)) {
      GroupFold(key, step, zero, rows, row, name);
    }
  }

  /** A `defaultdict` filled in a loop: each row updates the entry of its key. */
  method FoldBy<T, A>(key: T -> string, step: (A, T) -> A, zero: A, rows: seq<T>)
    returns (names: seq<string>, data: map<string, A>)
    ensures Holds(key, step, zero, rows, names, data)
  {
    names, data := [], map[];
    assert rows[..0] == [];
    var i := 0;
    while i < |rows|
      invariant 0 <= i <= |rows| && Holds(key, step, zero, rows[..i], names, data)
    {
      var row := rows[i];
      TakeSnoc(rows, i);
      HoldsOneMore(key, step, zero, rows[..i], names, data, row);
      var k := key(row);
      var before := if k in data then data[k] else zero;
      names := if k in data then names else names + [k];
      data := data[k := step(before, row)];
      i := i + 1;
    }
    TakeAll(rows);
  }

  function Append<T>(list: seq<T>, x: T): seq<T> {
    list + [x]
  }

  lemma {:induction false} FoldAppend<T>(rows: seq<T>)
    ensures Fold(Append, [], rows) == rows
  {
    if rows == [] {
    } else {
      FoldAppend(rows[..|rows| - 1]);
    }
  }
}
