/** The log of cache invalidations
    (backend/app/analytics/services/report_refresh_service.py). */
module ReportRefresh {
  import opened Wrappers
  import opened Collections

  type Time = int

  datatype Entry = Entry(entityType: string, entityId: string, invalidatedAt: Time, reason: string)

  predicate IsOf(e: Entry, entityType: string, entityId: string) {
    e.entityType == entityType && e.entityId == entityId
  }

  /** What `clear` removes; None is a wildcard. */
  predicate Matches(entityType: Option<string>, entityId: Option<string>, e: Entry) {
    && (entityType.None? || e.entityType == entityType.value)
    && (entityId.None? || e.entityId == entityId.value)
  }

  function Unmatched(entityType: Option<string>, entityId: Option<string>): Entry -> bool {
    e => !Matches(entityType, entityId, e)
  }

  function Cleared(log: seq<Entry>, entityType: Option<string>, entityId: Option<string>): seq<Entry> {
    Filter(Unmatched(entityType, entityId), log)
  }

  // ----- Filters -----

  lemma FilterOne<T>(p: T -> bool, x: T)
    ensures Filter(p, [x]) == if p(x) then [x] else []
  {
    var s := [x];
    assert s[..|s| - 1] == [];
    assert Filter(p, s) == Filter(p, []) + if p(x) then [x] else [];
  }

  lemma {:induction false} FilterTwice<T>(p: T -> bool, q: T -> bool, both: T -> bool, s: seq<T>)
    requires forall x :: both(x) <==> p(x) && q(x)
    ensures Filter(q, Filter(p, s)) == Filter(both, s)
  {
    if s == [] {
    } else {
      var n := |s| - 1;
      FilterTwice(p, q, both, s[..n]);
      FilterConcat(q, Filter(p, s[..n]), if p(s[n]) then [s[n]] else []);
      FilterOne(q, s[n]);
      assert Filter(p, s) == Filter(p, s[..n]) + if p(s[n]) then [s[n]] else [];
    }
  }

  lemma {:induction false} FilterAll<T>(p: T -> bool, s: seq<T>)
    ensures (forall x :: p(x)) ==> Filter(p, s) == s
  {
    if s == [] {
    } else {
      FilterAll(p, s[..|s| - 1]);
    }
  }

  lemma {:induction false} FilterNone<T>(p: T -> bool, s: seq<T>)
    ensures (forall x :: !p(x)) ==> Filter(p, s) == []
  {
    if s == [] {
    } else {
      FilterNone(p, s[..|s| - 1]);
    }
  }

  // ----- The service -----

  class ReportRefreshService {
    var invalidations: seq<Entry>

    constructor ()
      ensures invalidations == []
    {
      invalidations := [];
    }

    method Invalidate(entityType: string, entityId: string, reason: string, now: Time)
      modifies this
      ensures invalidations == old(invalidations) + [Entry(entityType, entityId, now, reason)]
    {
      invalidations := invalidations + [Entry(entityType, entityId, now, reason)];
    }

    method IsStale(entityType: string, entityId: string) returns (stale: bool)
      ensures stale <==> exists e :: e in invalidations && e.entityType == entityType && e.entityId == entityId
    {
      var i := |invalidations|;
      while i > 0
        invariant 0 <= i <= |invalidations|
        invariant forall j :: i <= j < |invalidations| ==> !IsOf(invalidations[j], entityType, entityId)
      {
        i := i - 1;
        if IsOf(invalidations[i], entityType, entityId) {
          assert invalidations[i] in invalidations;
          return true;
        }
      }
      stale := false;
    }

    /** The entries of the type, if one is given, that are not older than `since`, if
        that is given, in order. */
    method GetInvalidations(entityType: Option<string>, since: Option<Time>) returns (entries: seq<Entry>)
      ensures entries == Filter((e: Entry) => && (entityType.Some? ==> e.entityType == entityType.value)
                                              && (since.Some? ==> e.invalidatedAt >= since.value), invalidations)
    {
      var ofType := (e: Entry) => entityType.None? || e.entityType == entityType.value;
      var recent := (e: Entry) => since.None? || e.invalidatedAt >= since.value;
      entries := invalidations;
      FilterTwice(ofType, recent, (e: Entry) => && (entityType.Some? ==> e.entityType == entityType.value)
                                                && (since.Some? ==> e.invalidatedAt >= since.value), entries);
      FilterAll(ofType, entries);
      if entityType.Some? {
        entries := Filter(ofType, entries);
      }
      FilterAll(recent, entries);
      if since.Some? {
        entries := Filter(recent, entries);
      }
    }

    /** Removes the entries of the type and the id, where they are given, and keeps the
        others in order. */
    method Clear(entityType: Option<string>, entityId: Option<string>) returns (removed: int)
      modifies this
      ensures invalidations == Cleared(old(invalidations), entityType, entityId)
      ensures invalidations == Filter((e: Entry) => || (entityType.Some? && e.entityType != entityType.value)
                                                    || (entityId.Some? && e.entityId != entityId.value),
                                      old(invalidations))
      ensures removed == |old(invalidations)| - |invalidations|
    {
      var before := |invalidations|;
      FilterSame(Unmatched(entityType, entityId),
                 (e: Entry) => || (entityType.Some? && e.entityType != entityType.value)
                               || (entityId.Some? && e.entityId != entityId.value), invalidations);
      if entityType.None? && entityId.None? {
        FilterNone(Unmatched(entityType, entityId), invalidations);
        invalidations := [];
      } else {
        invalidations := Filter(Unmatched(entityType, entityId), invalidations);
      }
      removed := before - |invalidations|;
    }
  }

  // ----- Histories -----

  datatype Op = Invalidation(entry: Entry) | Clearing(entityType: Option<string>, entityId: Option<string>)

  /** The log after a history. */
  function Run(ops: seq<Op>): seq<Entry> {
    if ops == [] then []
    else
      var before := Run(ops[..|ops| - 1]);
      match ops[|ops| - 1]
      case Invalidation(entry) => before + [entry]
      case Clearing(entityType, entityId) => Cleared(before, entityType, entityId)
  }

  /** What the clears of a history returned, in total. */
  function Removed(ops: seq<Op>): int {
    if ops == [] then 0
    else
      var before := ops[..|ops| - 1];
      Removed(before)
      + match ops[|ops| - 1]
        case Invalidation(_) => 0
        case Clearing(entityType, entityId) => |Run(before)| - |Cleared(Run(before), entityType, entityId)|
  }

  function IsInvalidation(op: Op): int {
    if op.Invalidation? then 1 else 0
  }

  /** Every entry appended is either live or was returned by one `clear`. */
  lemma {:induction false} EntriesConserved(ops: seq<Op>)
    ensures Sum(IsInvalidation, ops) == |Run(ops)| + Removed(ops)
  {
    if ops == [] {
    } else {
      EntriesConserved(ops[..|ops| - 1]);
    }
  }

  /** The invalidation at `i` is not followed by a clear that matches it. */
  predicate Survives(ops: seq<Op>, i: nat)
    requires i < |ops|
  {
    ops[i].Invalidation?
    && forall j :: i < j < |ops| && ops[j].Clearing? ==> !Matches(ops[j].entityType, ops[j].entityId, ops[i].entry)
  }

  /** The entries of the surviving ones among the first `n` operations, in order. */
  function Survivors(ops: seq<Op>, n: nat): seq<Entry>
    requires n <= |ops|
  {
    if n == 0 then []
    else Survivors(ops, n - 1) + if Survives(ops, n - 1) then [ops[n - 1].entry] else []
  }

  lemma SurvivesOneMore(ops: seq<Op>, op: Op, i: nat)
    requires i < |ops|
    ensures Survives(ops + [op], i) <==>
              Survives(ops, i) && (op.Clearing? ==> !Matches(op.entityType, op.entityId, ops[i].entry))
  {
    var more := ops + [op];
    assert more[|ops|] == op;
    assert forall j :: 0 <= j < |ops| ==> more[j] == ops[j];
    if Survives(more, i) {
      forall j | i < j < |ops| && ops[j].Clearing?
        ensures !Matches(ops[j].entityType, ops[j].entityId, ops[i].entry)
      {
        assert more[j] == ops[j];
      }
    }
  }

  lemma SurvivorsStep(ops: seq<Op>, n: nat)
    requires 0 < n <= |ops|
    ensures Survives(ops, n - 1) ==> Survivors(ops, n) == Survivors(ops, n - 1) + [ops[n - 1].entry]
    ensures !Survives(ops, n - 1) ==> Survivors(ops, n) == Survivors(ops, n - 1)
  {
  }

  lemma ClearedSnoc(entries: seq<Entry>, e: Entry, entityType: Option<string>, entityId: Option<string>)
    ensures Cleared(entries + [e], entityType, entityId)
         == if Matches(entityType, entityId, e) then Cleared(entries, entityType, entityId)
            else Cleared(entries, entityType, entityId) + [e]
  {
    FilterConcat(Unmatched(entityType, entityId), entries, [e]);
    FilterOne(Unmatched(entityType, entityId), e);
  }

  lemma {:induction false} SurvivorsOfOneMore(ops: seq<Op>, op: Op, n: nat)
    requires n <= |ops|
    ensures Survivors(ops + [op], n)
         == if op.Clearing? then Cleared(Survivors(ops, n), op.entityType, op.entityId) else Survivors(ops, n)
  {
    if n == 0 {
    } else {
      SurvivorsOfOneMore(ops, op, n - 1);
      SurvivesOneMore(ops, op, n - 1);
      SurvivorsStep(ops, n);
      SurvivorsStep(ops + [op], n);
      if op.Clearing? && Survives(ops, n - 1) {
        ClearedSnoc(Survivors(ops, n - 1), ops[n - 1].entry, op.entityType, op.entityId);
      }
    }
  }

  /** The log is exactly the surviving invalidations, in the order they were made. */
  lemma {:induction false} LogIsSurvivors(ops: seq<Op>)
    ensures Run(ops) == Survivors(ops, |ops|)
  {
    if ops == [] {
    } else {
      var n := |ops| - 1;
      LogIsSurvivors(ops[..n]);
      SurvivorsOfOneMore(ops[..n], ops[n], n);
      assert ops[..n] + [ops[n]] == ops;
      assert Survivors(ops, n) ==
        if ops[n].Clearing? then Cleared(Run(ops[..n]), ops[n].entityType, ops[n].entityId) else Run(ops[..n]);
      assert Survives(ops, n) <==> ops[n].Invalidation?;
    }
  }

  lemma {:induction false} SurvivorMembers(ops: seq<Op>, n: nat, e: Entry)
    requires n <= |ops|
    ensures e in Survivors(ops, n) <==> exists i: nat :: i < n && Survives(ops, i) && ops[i].entry == e
  {
    if n == 0 {
    } else {
      SurvivorMembers(ops, n - 1, e);
    }
  }

  /** The entity is invalidated at `i`, and no later clear names its type or any type,
      together with its id or any id. */
  ghost predicate Lasts(ops: seq<Op>, i: nat, entityType: string, entityId: string) {
    && i < |ops| && ops[i].Invalidation?
    && ops[i].entry.entityType == entityType && ops[i].entry.entityId == entityId
    && forall j :: i < j < |ops| && ops[j].Clearing? ==>
         || (ops[j].entityType.Some? && ops[j].entityType.value != entityType)
         || (ops[j].entityId.Some? && ops[j].entityId.value != entityId)
  }

  lemma LastsExactly(ops: seq<Op>, i: nat, entityType: string, entityId: string)
    ensures Lasts(ops, i, entityType, entityId) <==>
              i < |ops| && Survives(ops, i) && IsOf(ops[i].entry, entityType, entityId)
  {
  }

  /** An entity is stale if and only if some invalidation of it is followed by no clear
      of it, of its type, of its id or of everything. */
  lemma StaleExactly(ops: seq<Op>, entityType: string, entityId: string)
    ensures (exists e :: e in Run(ops) && e.entityType == entityType && e.entityId == entityId) <==>
              exists i: nat :: Lasts(ops, i, entityType, entityId)
  {
    forall i: nat
      ensures Lasts(ops, i, entityType, entityId) <==>
                i < |ops| && Survives(ops, i) && IsOf(ops[i].entry, entityType, entityId)
    {
      LastsExactly(ops, i, entityType, entityId);
    }
    LogIsSurvivors(ops);
    forall e ensures e in Run(ops) <==> exists i: nat :: i < |ops| && Survives(ops, i) && ops[i].entry == e {
      SurvivorMembers(ops, |ops|, e);
    }
    if i: nat :| i < |ops| && Survives(ops, i) && IsOf(ops[i].entry, entityType, entityId) {
      assert ops[i].entry in Run(ops);
    }
  }
}
