/** String operations of the host languages: code-point order, `sorted` on a
    set of names, `strip`, substring search and `partition`. */
module Text {
  import opened Wrappers

  // ----- Code-point order -----

  predicate LexLess(a: string, b: string) {
    b != [] && (a == [] || a[0] < b[0] || (a[0] == b[0] && LexLess(a[1..], b[1..])))
  }

  lemma {:induction false} LexLessTransitive(a: string, b: string, c: string)
    requires LexLess(a, b) && LexLess(b, c)
    ensures LexLess(a, c)
  {
    if a != [] && a[0] == b[0] && b[0] == c[0] {
      LexLessTransitive(a[1..], b[1..], c[1..]);
    }
  }

  lemma {:induction false} LexLessTrichotomy(a: string, b: string)
    ensures !(LexLess(a, b) && LexLess(b, a))
    ensures a == b || LexLess(a, b) || LexLess(b, a)
    ensures !LexLess(a, a)
  {
    if a != [] {
      LexLessTrichotomy(a[1..], a[1..]);
    }
    if a != [] && b != [] && a[0] == b[0] {
      LexLessTrichotomy(a[1..], b[1..]);
      assert a == [a[0]] + a[1..] && b == [b[0]] + b[1..];
    }
  }

  /** `b` continues `a`, or has the higher character where they first differ. */
  ghost predicate DiffersAt(a: string, b: string, k: int) {
    && 0 <= k <= |a| && k < |b| && (forall i :: 0 <= i < k ==> a[i] == b[i])
    && (k == |a| || a[k] < b[k])
  }

  /** The order is that of the code points at the first difference, shorter first. */
  lemma {:induction false} LexLessExactly(a: string, b: string)
    ensures LexLess(a, b) <==> exists k :: DiffersAt(a, b, k)
  {
    if a == [] || b == [] {
      if b != [] { assert DiffersAt(a, b, 0); }
    } else if a[0] == b[0] {
      LexLessExactly(a[1..], b[1..]);
      if k :| DiffersAt(a[1..], b[1..], k) {
        forall i | 0 <= i < k + 1 ensures a[i] == b[i] {
          if i > 0 { assert a[i] == a[1..][i - 1] && b[i] == b[1..][i - 1]; }
        }
        assert DiffersAt(a, b, k + 1);
      }
      if k :| DiffersAt(a, b, k) {
        assert k > 0;
        forall i | 0 <= i < k - 1 ensures a[1..][i] == b[1..][i] { assert a[i + 1] == b[i + 1]; }
        assert DiffersAt(a[1..], b[1..], k - 1);
      }
    } else if LexLess(a, b) {
      assert DiffersAt(a, b, 0);
    }
  }

  ghost predicate StrictlySorted(names: seq<string>) {
    forall i, j :: 0 <= i < j < |names| ==> LexLess(names[i], names[j])
  }

  ghost function Elements<T>(s: seq<T>): set<T> {
    set x | x in s
  }

  /** `sorted(names)` for a set: strictly increasing, with exactly these elements. */
  ghost predicate IsSortedSet(r: seq<string>, names: set<string>) {
    StrictlySorted(r) && Elements(r) == names
  }

  lemma NoElements<T>(s: seq<T>)
    ensures Elements(s) == {} <==> s == []
  {
    if s != [] { assert s[0] in Elements(s); }
  }

  lemma TailElements(r: seq<string>)
    requires r != [] && StrictlySorted(r)
    ensures StrictlySorted(r[1..]) && Elements(r[1..]) == Elements(r) - {r[0]}
  {
    forall x | x in r[1..] ensures x != r[0] {
      LexLessTrichotomy(r[0], x);
    }
    forall x | x in r && x != r[0] ensures x in r[1..] {
      var i :| 0 <= i < |r| && r[i] == x;
      assert r[1..][i - 1] == x;
    }
  }

  /** There is only one such sequence, so `sorted` is determined by the set. */
  lemma {:induction false} SortedSetUnique(r: seq<string>, t: seq<string>, names: set<string>)
    requires IsSortedSet(r, names) && IsSortedSet(t, names)
    ensures r == t
  {
    if r == [] {
      NoElements(t);
    } else {
      assert r[0] in Elements(r);
      var i :| 0 <= i < |t| && t[i] == r[0];
      assert t[0] in Elements(t);
      var j :| 0 <= j < |r| && r[j] == t[0];
      LexLessTrichotomy(r[0], t[0]);
      assert r[0] == t[0];
      TailElements(r);
      TailElements(t);
      SortedSetUnique(r[1..], t[1..], names - {r[0]});
      assert r == [r[0]] + r[1..] && t == [t[0]] + t[1..];
    }
  }

  /** Where a new name goes in a sorted list. */
  method Insert(name: string, names: seq<string>) returns (r: seq<string>)
    requires StrictlySorted(names) && name !in names
    ensures StrictlySorted(r) && Elements(r) == Elements(names) + {name}
  {
    var i := 0;
    while i < |names| && LexLess(names[i], name)
      invariant 0 <= i <= |names|
      invariant forall j :: 0 <= j < i ==> LexLess(names[j], name)
    {
      i := i + 1;
    }
    forall j | i <= j < |names| ensures LexLess(name, names[j]) {
      LexLessTrichotomy(names[i], name);
      if i < j { LexLessTransitive(name, names[i], names[j]); }
    }
    r := names[..i] + [name] + names[i..];
    assert forall x :: x in r <==> x in names || x == name by {
      assert names == names[..i] + names[i..];
    }
  }

  /** `sorted(names)` */
  method Sorted(names: set<string>) returns (r: seq<string>)
    ensures IsSortedSet(r, names)
  {
    r := [];
    var rest := names;
    while rest != {}
      invariant StrictlySorted(r) && rest <= names
      invariant Elements(r) == names - rest
      decreases rest
    {
      var name :| name in rest;
      assert name in r <==> name in Elements(r);
      r := Insert(name, r);
      rest := rest - {name};
    }
  }

  // ----- strip -----

  /** The characters `str.strip()` removes. */
  predicate IsSpace(c: char) {
    || '\U{9}' <= c <= '\U{D}'
    || '\U{1C}' <= c <= ' '
    || c in ['\U{85}', '\U{A0}', '\U{1680}', '\U{2028}', '\U{2029}', '\U{202F}', '\U{205F}', '\U{3000}']
    || '\U{2000}' <= c <= '\U{200A}'
  }

  /** They are these twenty-nine. */
  lemma SpacesExactly(c: char)
    ensures IsSpace(c) <==>
              c in [' ', '\t', '\n', '\r', '\U{B}', '\U{C}', '\U{1C}', '\U{1D}', '\U{1E}', '\U{1F}', '\U{85}',
                    '\U{A0}', '\U{1680}', '\U{2000}', '\U{2001}', '\U{2002}', '\U{2003}', '\U{2004}', '\U{2005}',
                    '\U{2006}', '\U{2007}', '\U{2008}', '\U{2009}', '\U{200A}', '\U{2028}', '\U{2029}', '\U{202F}',
                    '\U{205F}', '\U{3000}']
  {
  }

  /** `s.strip()` */
  function Strip(s: string): string {
    if s == [] then s
    else if IsSpace(s[0]) then Strip(s[1..])
    else if IsSpace(s[|s| - 1]) then Strip(s[..|s| - 1])
    else s
  }

  /** Stripping twice is stripping once: no space is left at either end. */
  lemma {:induction false} StripIdempotent(s: string)
    ensures Strip(Strip(s)) == Strip(s)
    ensures Strip(s) != [] ==> !IsSpace(Strip(s)[0]) && !IsSpace(Strip(s)[|Strip(s)| - 1])
  {
    if s == [] {
    } else {
      if IsSpace(s[0]) {
        StripIdempotent(s[1..]);
      } else if IsSpace(s[|s| - 1]) {
        StripIdempotent(s[..|s| - 1]);
      }
    }
  }

  predicate AllSpace(s: string) {
    forall c :: c in s ==> IsSpace(c)
  }

  /** Only spaces at the ends are removed. */
  lemma {:induction false} StripRemovesSpaces(s: string) returns (before: string, after: string)
    ensures s == before + Strip(s) + after && AllSpace(before) && AllSpace(after)
  {
    before, after := "", "";
    if s != [] {
      if IsSpace(s[0]) {
        before, after := StripRemovesSpaces(s[1..]);
        before := [s[0]] + before;
      } else if IsSpace(s[|s| - 1]) {
        before, after := StripRemovesSpaces(s[..|s| - 1]);
        after := after + [s[|s| - 1]];
      }
    }
  }

  // ----- Substrings -----

  predicate OccursAt(s: string, p: string, i: nat) {
    i + |p| <= |s| && s[i..i + |p|] == p
  }

  /** The first place where `p` occurs in `s`, as `s.find(p)` looks for it. */
  function Find(s: string, p: string): Option<nat> {
    if p <= s then Some(0)
    else if s == [] then None
    else
      var rest := Find(s[1..], p);
      if rest.Some? then Some(rest.value + 1) else None
  }

  lemma TailSlice(s: string, j: nat, k: nat)
    requires 0 < j <= k <= |s|
    ensures s[j..k] == s[1..][j - 1..k - 1]
  {
    var tail := s[1..][j - 1..k - 1];
    assert |tail| == k - j;
    assert forall i :: 0 <= i < k - j ==> s[j..k][i] == tail[i];
  }

  lemma TailOccurs(s: string, p: string, j: nat)
    requires s != [] && j > 0
    ensures OccursAt(s, p, j) <==> OccursAt(s[1..], p, j - 1)
  {
    if j + |p| <= |s| { TailSlice(s, j, j + |p|); }
  }

  lemma {:induction false} FindsFirst(s: string, p: string)
    ensures Find(s, p).Some? ==>
              OccursAt(s, p, Find(s, p).value) && forall j: nat :: j < Find(s, p).value ==> !OccursAt(s, p, j)
    ensures Find(s, p).None? ==> forall j: nat :: !OccursAt(s, p, j)
  {
    assert OccursAt(s, p, 0) <==> p <= s by {
      if |p| <= |s| { assert s[0..0 + |p|] == s[..|p|]; }
    }
    if !(p <= s) && s != [] {
      FindsFirst(s[1..], p);
      forall j: nat | j > 0 ensures OccursAt(s, p, j) <==> OccursAt(s[1..], p, j - 1) {
        TailOccurs(s, p, j);
      }
    }
  }

  /** The first occurrence is determined by where there are occurrences. */
  lemma FindIs(s: string, p: string, i: nat)
    requires OccursAt(s, p, i) && forall j: nat :: j < i ==> !OccursAt(s, p, j)
    ensures Find(s, p) == Some(i)
  {
    FindsFirst(s, p);
  }

  lemma FindSame(s: string, t: string, p: string)
    requires forall i: nat :: OccursAt(s, p, i) <==> OccursAt(t, p, i)
    ensures Find(s, p) == Find(t, p)
  {
    FindsFirst(s, p);
    FindsFirst(t, p);
    if Find(t, p).Some? { FindIs(s, p, Find(t, p).value); }
  }

  /** `p in s` */
  predicate Contains(s: string, p: string) {
    Find(s, p).Some?
  }
}
