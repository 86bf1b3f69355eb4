/** API keys: the entity (backend/app/apikeys/domain.py) and the service over a
    store of keys (backend/app/apikeys/services.py).  The store maps ids to rows;
    fresh ids and raw keys and the clock are passed in, and hashing is a
    parameter. */
module ApiKeys {
  import opened Wrappers
  import opened Text

  type Time = int

  const MS_PER_DAY := 86_400_000

  datatype KeyRow = KeyRow(
    name: string, keyHash: string, prefix: string, userId: string, organizationId: Option<string>,
    scopes: seq<string>, expiresAt: Option<Time>, lastUsedAt: Option<Time>, usageCount: nat, isActive: bool,
    rotatedFrom: Option<string>)
  {
    predicate IsExpired(now: Time) {
      expiresAt.Some? && now > expiresAt.value
    }

    predicate IsValid(now: Time) {
      isActive && !IsExpired(now)
    }
  }

  /** The row of a new key. */
  function NewRow(hash: string -> string, rawKey: string, name: string, userId: string,
                  organizationId: Option<string>, scopes: seq<string>, expiresInDays: Option<int>, now: Time): KeyRow
  {
    KeyRow(Strip(name), hash(rawKey), if |rawKey| > 12 then rawKey[..12] else rawKey, userId, organizationId, scopes,
           if expiresInDays.Some? then Some(now + expiresInDays.value * MS_PER_DAY) else None, None, 0, true, None)
  }

  function Used(row: KeyRow, now: Time): KeyRow {
    row.(lastUsedAt := Some(now), usageCount := row.usageCount + 1)
  }

  class ApiKey {
    const id: string
    const name: string
    const keyHash: string
    const prefix: string
    const userId: string
    const organizationId: Option<string>
    const scopes: seq<string>
    const rotatedFrom: Option<string>
    var expiresAt: Option<Time>
    var lastUsedAt: Option<Time>
    var usageCount: nat
    var isActive: bool

    function Row(): KeyRow
      reads this
    {
      KeyRow(name, keyHash, prefix, userId, organizationId, scopes, expiresAt, lastUsedAt, usageCount, isActive,
             rotatedFrom)
    }

    /** The entity of a row; the name is stripped. */
    constructor (id: string, row: KeyRow)
      ensures this.id == id && Row() == row.(name := Strip(row.name))
    {
      this.id, name, keyHash, prefix, userId := id, Strip(row.name), row.keyHash, row.prefix, row.userId;
      organizationId, scopes, rotatedFrom := row.organizationId, row.scopes, row.rotatedFrom;
      expiresAt, lastUsedAt, usageCount, isActive := row.expiresAt, row.lastUsedAt, row.usageCount, row.isActive;
    }

    method RecordUsage(now: Time)
      modifies this
      ensures Row() == Used(old(Row()), now)
    {
      lastUsedAt := Some(now);
      usageCount := usageCount + 1;
    }

    method Revoke()
      modifies this
      ensures Row() == old(Row()).(isActive := false)
    {
      isActive := false;
    }
  }

  // ----- The service as a state machine -----

  /** A key as it was issued. */
  datatype Issue = Issue(id: string, row: KeyRow)

  /** The store, and everything ever issued, deleted keys included. */
  datatype State = State(rows: map<string, KeyRow>, issued: seq<Issue>)

  const EMPTY := State(map[], [])

  datatype Op =
    | Create(id: string, rawKey: string, name: string, userId: string, organizationId: Option<string>,
             scopes: seq<string>, expiresInDays: Option<int>, now: Time)
    | Validate(rawKey: string, now: Time)
    | Revoke(id: string, userId: string)
    | Rotate(id: string, userId: string, newId: string, newRawKey: string, now: Time)
    | Delete(id: string, userId: string)

  datatype Refusal = InvalidKey | RevokedOrExpired | NotFound | NotAuthorized

  datatype Outcome = Done(id: string) | Refused(why: Refusal)

  function Holders(rows: map<string, KeyRow>, keyHash: string): set<string> {
    set id | id in rows && rows[id].keyHash == keyHash
  }

  /** `find_by_key_hash` */
  ghost function FindByHash(rows: map<string, KeyRow>, keyHash: string): (r: Option<string>)
    ensures r.Some? ==> r.value in Holders(rows, keyHash)
    ensures r.None? ==> Holders(rows, keyHash) == {}
  {
    if Holders(rows, keyHash) == {} then None
    else
      var id :| id in Holders(rows, keyHash);
      Some(id)
  }

  /** The row of the key that takes the place of another. */
  function RotatedRow(hash: string -> string, oldId: string, replaced: KeyRow, newRawKey: string, now: Time): KeyRow {
    var created := NewRow(hash, newRawKey, replaced.name, replaced.userId, replaced.organizationId,
                          replaced.scopes, Some(90), now);
    created.(name := Strip(created.name), rotatedFrom := Some(oldId))
  }

  /** The key an operation names, if its owner asks for it. */
  function Owned(rows: map<string, KeyRow>, id: string, userId: string): Outcome {
    if id !in rows then Refused(NotFound)
    else if rows[id].userId != userId then Refused(NotAuthorized)
    else Done(id)
  }

  ghost function OutcomeOf(hash: string -> string, s: State, op: Op): Outcome {
    match op
    case Create(id, _, _, _, _, _, _, _) => Done(id)
    case Validate(rawKey, now) =>
      (match FindByHash(s.rows, hash(rawKey))
       case None => Refused(InvalidKey)
       case Some(id) => if s.rows[id].IsValid(now) then Done(id) else Refused(RevokedOrExpired))
    case Revoke(id, userId) => Owned(s.rows, id, userId)
    case Rotate(id, userId, newId, _, _) =>
      if Owned(s.rows, id, userId).Done? then Done(newId) else Owned(s.rows, id, userId)
    case Delete(id, userId) => Owned(s.rows, id, userId)
  }

  /** A refused operation changes nothing. */
  ghost function Step(hash: string -> string, s: State, op: Op): State {
    if OutcomeOf(hash, s, op).Refused? then s
    else
      match op
      case Create(id, rawKey, name, userId, organizationId, scopes, expiresInDays, now) =>
        var row := NewRow(hash, rawKey, name, userId, organizationId, scopes, expiresInDays, now);
        State(s.rows[id := row], s.issued + [Issue(id, row)])
      case Validate(_, now) =>
        var id := OutcomeOf(hash, s, op).id;
        assert id in s.rows;
        s.(rows := s.rows[id := Used(s.rows[id], now)])
      case Revoke(id, _) => s.(rows := s.rows[id := s.rows[id].(isActive := false)])
      case Rotate(id, _, newId, newRawKey, now) =>
        var row := RotatedRow(hash, id, s.rows[id], newRawKey, now);
        State(s.rows[id := s.rows[id].(isActive := false)][newId := row], s.issued + [Issue(newId, row)])
      case Delete(id, _) => s.(rows := s.rows - {id})
  }

  ghost predicate Unused(s: State, id: string, keyHash: string) {
    forall i :: 0 <= i < |s.issued| ==> s.issued[i].id != id && s.issued[i].row.keyHash != keyHash
  }

  /** New ids and keys have not been issued before. */
  ghost predicate Fresh(hash: string -> string, s: State, op: Op) {
    match op
    case Create(id, rawKey, _, _, _, _, _, _) => Unused(s, id, hash(rawKey))
    case Rotate(_, _, newId, newRawKey, _) => Unused(s, newId, hash(newRawKey))
    case _ => true
  }

  // ----- What every reachable store keeps -----

  /** A row as it was when issued. */
  function AsIssued(row: KeyRow): KeyRow {
    row.(isActive := true, usageCount := 0, lastUsedAt := None)
  }

  /** The later key carries on from the earlier one. */
  ghost predicate Continues(later: KeyRow, earlier: KeyRow) {
    && later.userId == earlier.userId && later.organizationId == earlier.organizationId
    && later.scopes == earlier.scopes && later.name == earlier.name
  }

  ghost predicate IssuedAt(s: State, i: int, id: string) {
    0 <= i < |s.issued| && s.issued[i].id == id
  }

  /** Ids and hashes are issued once, with stripped names. */
  ghost predicate Distinct(issued: seq<Issue>) {
    && (forall i, j :: 0 <= i < j < |issued| ==>
          issued[i].id != issued[j].id && issued[i].row.keyHash != issued[j].row.keyHash)
    && forall i :: 0 <= i < |issued| ==> Strip(issued[i].row.name) == issued[i].row.name
  }

  /** A stored row is an issued one, apart from its use and its revocation. */
  ghost predicate RowKept(s: State, id: string)
    requires id in s.rows
  {
    exists i :: IssuedAt(s, i, id) && s.issued[i].row == AsIssued(s.rows[id])
  }

  /** A rotated key continues an earlier one, and what it replaces is inactive. */
  ghost predicate ParentKept(s: State, i: int)
    requires 0 <= i < |s.issued|
  {
    s.issued[i].row.rotatedFrom.Some? ==>
      var parent := s.issued[i].row.rotatedFrom.value;
      && (exists j :: j < i && IssuedAt(s, j, parent) && Continues(s.issued[i].row, s.issued[j].row))
      && (parent in s.rows ==> !s.rows[parent].isActive)
  }

  ghost predicate Kept(s: State) {
    && Distinct(s.issued)
    && (forall id :: id in s.rows ==> RowKept(s, id))
    && forall i :: 0 <= i < |s.issued| ==> ParentKept(s, i)
  }

  /** A hash identifies its key. */
  lemma FindsHolder(s: State, id: string)
    requires Kept(s) && id in s.rows
    ensures Holders(s.rows, s.rows[id].keyHash) == {id}
    ensures FindByHash(s.rows, s.rows[id].keyHash) == Some(id)
  {
    var keyHash := s.rows[id].keyHash;
    assert id in Holders(s.rows, keyHash);
    forall a | a in Holders(s.rows, keyHash) ensures a == id {
      assert RowKept(s, a) && RowKept(s, id);
      var i :| IssuedAt(s, i, a) && s.issued[i].row == AsIssued(s.rows[a]);
      var j :| IssuedAt(s, j, id) && s.issued[j].row == AsIssued(s.rows[id]);
      assert i == j;
    }
  }

  /** Rows that differ in use and revocation alone; no key becomes active. */
  ghost predicate Revises(rows: map<string, KeyRow>, before: map<string, KeyRow>) {
    && rows.Keys <= before.Keys
    && forall k :: k in rows ==> AsIssued(rows[k]) == AsIssued(before[k]) && (rows[k].isActive ==> before[k].isActive)
  }

  /** Changing what may change of the rows, or removing some, keeps the store. */
  lemma UpdateKeeps(s: State, rows: map<string, KeyRow>)
    requires Kept(s) && Revises(rows, s.rows)
    ensures Kept(s.(rows := rows))
  {
    var t := s.(rows := rows);
    forall k | k in rows ensures RowKept(t, k) {
      assert RowKept(s, k);
      var i :| IssuedAt(s, i, k) && s.issued[i].row == AsIssued(s.rows[k]);
      assert IssuedAt(t, i, k);
    }
    forall i | 0 <= i < |t.issued| ensures ParentKept(t, i) {
      assert ParentKept(s, i);
      if s.issued[i].row.rotatedFrom.Some? {
        var parent := s.issued[i].row.rotatedFrom.value;
        var j :| j < i && IssuedAt(s, j, parent) && Continues(s.issued[i].row, s.issued[j].row);
        assert IssuedAt(t, j, parent);
      }
    }
  }

  /** Issuing a key: what was issued before keeps its place. */
  lemma IssueKeepsParents(s: State, issue: Issue, t: State)
    requires Kept(s) && Unused(s, issue.id, issue.row.keyHash)
    requires t == State(s.rows[issue.id := issue.row], s.issued + [issue])
    ensures forall i :: 0 <= i < |s.issued| ==> ParentKept(t, i)
  {
    forall i | 0 <= i < |s.issued| ensures ParentKept(t, i) {
      assert ParentKept(s, i);
      if s.issued[i].row.rotatedFrom.Some? {
        var parent := s.issued[i].row.rotatedFrom.value;
        var j :| j < i && IssuedAt(s, j, parent) && Continues(s.issued[i].row, s.issued[j].row);
        assert IssuedAt(t, j, parent) && parent != issue.id;
      }
    }
  }

  lemma IssueKeepsRows(s: State, issue: Issue, t: State)
    requires Kept(s) && Unused(s, issue.id, issue.row.keyHash) && AsIssued(issue.row) == issue.row
    requires t == State(s.rows[issue.id := issue.row], s.issued + [issue])
    ensures forall k :: k in t.rows ==> RowKept(t, k)
  {
    forall k | k in t.rows ensures RowKept(t, k) {
      if k == issue.id {
        assert IssuedAt(t, |s.issued|, k);
      } else {
        assert RowKept(s, k);
        var i :| IssuedAt(s, i, k) && s.issued[i].row == AsIssued(s.rows[k]);
        assert IssuedAt(t, i, k);
      }
    }
  }

  /** The parent of a new key is an inactive stored key that it continues. */
  ghost predicate ParentOf(s: State, row: KeyRow) {
    row.rotatedFrom.Some? ==>
      var parent := row.rotatedFrom.value;
      parent in s.rows && !s.rows[parent].isActive && Continues(row, s.rows[parent])
  }

  lemma IssueKeeps(s: State, issue: Issue)
    requires Kept(s) && Unused(s, issue.id, issue.row.keyHash) && ParentOf(s, issue.row)
    requires AsIssued(issue.row) == issue.row && Strip(issue.row.name) == issue.row.name
    ensures Kept(State(s.rows[issue.id := issue.row], s.issued + [issue]))
  {
    var t := State(s.rows[issue.id := issue.row], s.issued + [issue]);
    IssueKeepsRows(s, issue, t);
    IssueKeepsParents(s, issue, t);
    if issue.row.rotatedFrom.Some? {
      var parent := issue.row.rotatedFrom.value;
      assert RowKept(s, parent);
      var j :| IssuedAt(s, j, parent) && s.issued[j].row == AsIssued(s.rows[parent]);
      assert IssuedAt(t, j, parent) && parent != issue.id;
    }
    assert ParentKept(t, |s.issued|);
  }

  lemma NamesStripped(s: State, id: string)
    requires Kept(s) && id in s.rows
    ensures Strip(s.rows[id].name) == s.rows[id].name
  {
    assert RowKept(s, id);
  }

  lemma StepKeepsRotate(hash: string -> string, s: State, id: string, newId: string, newRawKey: string, now: Time)
    requires Kept(s) && id in s.rows && Unused(s, newId, hash(newRawKey))
    ensures var row := RotatedRow(hash, id, s.rows[id], newRawKey, now);
            Kept(State(s.rows[id := s.rows[id].(isActive := false)][newId := row], s.issued + [Issue(newId, row)]))
  {
    var row := RotatedRow(hash, id, s.rows[id], newRawKey, now);
    var revoked := s.(rows := s.rows[id := s.rows[id].(isActive := false)]);
    UpdateKeeps(s, revoked.rows);
    NamesStripped(s, id);
    IssueKeeps(revoked, Issue(newId, row));
  }

  lemma StepKeeps(hash: string -> string, s: State, op: Op)
    requires Kept(s) && Fresh(hash, s, op)
    ensures Kept(Step(hash, s, op))
  {
    if OutcomeOf(hash, s, op).Done? {
      match op
      case Create(id, rawKey, name, userId, organizationId, scopes, expiresInDays, now) =>
        StripIdempotent(name);
        IssueKeeps(s, Issue(id, NewRow(hash, rawKey, name, userId, organizationId, scopes, expiresInDays, now)));
      case Rotate(id, _, newId, newRawKey, now) => StepKeepsRotate(hash, s, id, newId, newRawKey, now);
      case Validate(_, _) => UpdateKeeps(s, Step(hash, s, op).rows);
      case Revoke(id, _) => UpdateKeeps(s, s.rows[id := s.rows[id].(isActive := false)]);
      case Delete(id, _) => UpdateKeeps(s, s.rows - {id});
    }
  }

  /** A step revises the rows it does not issue, and forgets no issue. */
  lemma StepRevises(hash: string -> string, s: State, op: Op)
    requires Kept(s) && Fresh(hash, s, op)
    ensures s.issued <= Step(hash, s, op).issued
    ensures forall k :: k in s.rows && k in Step(hash, s, op).rows ==>
              (Step(hash, s, op).rows[k].isActive ==> s.rows[k].isActive)
  {
    forall k | k in s.rows ensures exists i :: IssuedAt(s, i, k) { assert RowKept(s, k); }
  }

  // ----- Histories -----

  ghost function Run(hash: string -> string, ops: seq<Op>): State {
    if ops == [] then EMPTY else Step(hash, Run(hash, ops[..|ops| - 1]), ops[|ops| - 1])
  }

  ghost predicate FreshRun(hash: string -> string, ops: seq<Op>) {
    ops == [] || (FreshRun(hash, ops[..|ops| - 1]) && Fresh(hash, Run(hash, ops[..|ops| - 1]), ops[|ops| - 1]))
  }

  /** In every store the service can reach, a stored key that another key names
      as `rotated_from` is inactive; rows keep the owner, organization, scopes,
      name and hash they were issued with; no two keys share a hash. */
  lemma {:induction false} ReachableKept(hash: string -> string, ops: seq<Op>)
    requires FreshRun(hash, ops)
    ensures Kept(Run(hash, ops))
  {
    if ops == [] {
    } else {
      ReachableKept(hash, ops[..|ops| - 1]);
      StepKeeps(hash, Run(hash, ops[..|ops| - 1]), ops[|ops| - 1]);
    }
  }

  lemma PlaceOf(s: State, id: string) returns (i: int)
    requires Kept(s) && id in s.rows
    ensures IssuedAt(s, i, id) && s.issued[i].row == AsIssued(s.rows[id])
  {
    assert RowKept(s, id);
    i :| IssuedAt(s, i, id) && s.issued[i].row == AsIssued(s.rows[id]);
  }

  lemma ParentInactive(s: State, a: string, b: string)
    requires Kept(s) && a in s.rows && b in s.rows && s.rows[b].rotatedFrom == Some(a)
    ensures a != b && !s.rows[a].isActive && Continues(s.rows[b], s.rows[a])
  {
    var i := PlaceOf(s, b);
    var l := PlaceOf(s, a);
    assert ParentKept(s, i);
    var j :| j < i && IssuedAt(s, j, a) && Continues(s.issued[i].row, s.issued[j].row);
    assert j == l;
  }

  /** Among stored keys: one that another was rotated from is inactive, and the
      other one continues it. */
  lemma ReplacedKeyInactive(hash: string -> string, ops: seq<Op>, a: string, b: string)
    requires FreshRun(hash, ops)
    requires a in Run(hash, ops).rows && b in Run(hash, ops).rows && Run(hash, ops).rows[b].rotatedFrom == Some(a)
    ensures var rows := Run(hash, ops).rows; a != b && !rows[a].isActive && Continues(rows[b], rows[a])
  {
    ReachableKept(hash, ops);
    ParentInactive(Run(hash, ops), a, b);
  }

  /** A key that has been issued is not issued again: a step can only revise it. */
  lemma IssuedStays(hash: string -> string, s: State, op: Op, id: string)
    requires Kept(s) && Fresh(hash, s, op) && exists i :: IssuedAt(s, i, id)
    ensures exists i :: IssuedAt(Step(hash, s, op), i, id)
    ensures id in Step(hash, s, op).rows ==>
              id in s.rows && (Step(hash, s, op).rows[id].isActive ==> s.rows[id].isActive)
  {
    StepRevises(hash, s, op);
    var i :| IssuedAt(s, i, id);
    assert IssuedAt(Step(hash, s, op), i, id);
  }

  /** A revoked key stays revoked: after any number of further operations it is
      still inactive, or deleted. */
  lemma {:induction false} RevokedStaysRevoked(hash: string -> string, ops: seq<Op>, n: nat, id: string)
    requires FreshRun(hash, ops) && n <= |ops|
    requires id in Run(hash, ops[..n]).rows && !Run(hash, ops[..n]).rows[id].isActive
    ensures id in Run(hash, ops).rows ==> !Run(hash, ops).rows[id].isActive
    ensures exists i :: IssuedAt(Run(hash, ops), i, id)
  {
    var m := |ops| - 1;
    if n == |ops| {
      assert ops[..n] == ops;
      ReachableKept(hash, ops);
      assert RowKept(Run(hash, ops), id);
    } else {
      assert ops[..m][..n] == ops[..n];
      RevokedStaysRevoked(hash, ops[..m], n, id);
      ReachableKept(hash, ops[..m]);
      IssuedStays(hash, Run(hash, ops[..m]), ops[m], id);
    }
  }

  /** A chain of keys, each rotated from the one before it. */
  ghost predicate Lineage(s: State, chain: seq<nat>) {
    && (forall k :: 0 <= k < |chain| ==> chain[k] < |s.issued|)
    && forall k :: 0 <= k < |chain| - 1 ==>
         s.issued[chain[k + 1]].row.rotatedFrom == Some(s.issued[chain[k]].id)
  }

  /** Lineages are acyclic, since each key was issued after the one it replaces,
      and everyone in one has the same owner, organization, scopes and name. */
  lemma {:induction false} LineageConstant(s: State, chain: seq<nat>)
    requires Kept(s) && Lineage(s, chain)
    ensures forall k, l :: 0 <= k < l < |chain| ==> chain[k] < chain[l]
    ensures forall k, l :: 0 <= k < l < |chain| ==> Continues(s.issued[chain[l]].row, s.issued[chain[k]].row)
  {
    if |chain| > 1 {
      var n := |chain| - 1;
      LineageConstant(s, chain[..n]);
      var parent := s.issued[chain[n - 1]].id;
      assert ParentKept(s, chain[n]);
      var j :| j < chain[n] && IssuedAt(s, j, parent) && Continues(s.issued[chain[n]].row, s.issued[j].row);
      assert j == chain[n - 1];
      forall k | 0 <= k < n
        ensures chain[k] < chain[n] && Continues(s.issued[chain[n]].row, s.issued[chain[k]].row)
      {
        assert chain[..n][k] == chain[k] && chain[..n][n - 1] == chain[n - 1];
      }
    }
  }

  // ----- The life of a key -----

  /** A key that was issued and is not stored and active stays so. */
  lemma {:induction false} EndedStaysEnded(hash: string -> string, ops: seq<Op>, n: nat)
    requires FreshRun(hash, ops) && n < |ops| && (ops[n].Revoke? || ops[n].Rotate? || ops[n].Delete?)
    requires OutcomeOf(hash, Run(hash, ops[..n]), ops[n]).Done?
    ensures var rows := Run(hash, ops).rows; ops[n].id in rows ==> !rows[ops[n].id].isActive
    ensures exists i :: IssuedAt(Run(hash, ops), i, ops[n].id)
  {
    var m, id := |ops| - 1, ops[n].id;
    var s := Run(hash, ops[..m]);
    ReachableKept(hash, ops[..m]);
    if n == m {
      assert RowKept(s, id);
      IssuedStays(hash, s, ops[m], id);
    } else {
      assert ops[..m][..n] == ops[..n];
      EndedStaysEnded(hash, ops[..m], n);
      IssuedStays(hash, s, ops[m], id);
    }
  }

  /** The owner ends a key by revoking, rotating or deleting it. */
  predicate EndsKey(op: Op, id: string, userId: string) {
    (op.Revoke? || op.Rotate? || op.Delete?) && op.id == id && op.userId == userId
  }

  /** An active key stays in the store and active exactly through the steps that do not
      end it; what it was issued with stays. */
  lemma StepLife(hash: string -> string, s: State, op: Op, id: string)
    requires Kept(s) && Fresh(hash, s, op) && id in s.rows && s.rows[id].isActive
    ensures var t := Step(hash, s, op);
            && (id in t.rows && t.rows[id].isActive <==> !EndsKey(op, id, s.rows[id].userId))
            && (id in t.rows ==> AsIssued(t.rows[id]) == AsIssued(s.rows[id]))
            && exists i :: IssuedAt(t, i, id)
  {
    assert RowKept(s, id);
    var i :| IssuedAt(s, i, id) && s.issued[i].row == AsIssued(s.rows[id]);
    assert IssuedAt(Step(hash, s, op), i, id);
  }

  /** A key issued with this row is stored and active exactly when it has not ended. */
  ghost predicate Lives(s: State, id: string, row: KeyRow, ended: bool) {
    && (id in s.rows && s.rows[id].isActive <==> !ended)
    && (id in s.rows ==> AsIssued(s.rows[id]) == AsIssued(row))
    && exists i :: IssuedAt(s, i, id)
  }

  lemma LivesNow(s: State, id: string)
    requires Kept(s) && id in s.rows && s.rows[id].isActive
    ensures Lives(s, id, s.rows[id], false)
  {
    assert RowKept(s, id);
  }

  lemma StepLives(hash: string -> string, s: State, op: Op, id: string, row: KeyRow, ended: bool)
    requires Kept(s) && Fresh(hash, s, op) && Lives(s, id, row, ended)
    ensures Lives(Step(hash, s, op), id, row, ended || EndsKey(op, id, row.userId))
  {
    IssuedStays(hash, s, op, id);
    if !ended { StepLife(hash, s, op, id); }
  }

  ghost predicate EndedSince(ops: seq<Op>, n: nat, id: string, userId: string) {
    exists k :: n <= k < |ops| && EndsKey(ops[k], id, userId)
  }

  lemma EndedLast(ops: seq<Op>, n: nat, id: string, userId: string)
    requires n < |ops|
    ensures EndedSince(ops, n, id, userId) <==>
              EndedSince(ops[..|ops| - 1], n, id, userId) || EndsKey(ops[|ops| - 1], id, userId)
  {
    assert forall k :: 0 <= k < |ops| - 1 ==> ops[..|ops| - 1][k] == ops[k];
  }

  /** A key that is active after `n` operations is stored and active after them all
      exactly when its owner has not ended it since; nothing else about it changes but
      its use. */
  lemma {:induction false} KeyLives(hash: string -> string, ops: seq<Op>, n: nat, id: string)
    requires FreshRun(hash, ops) && n <= |ops|
    requires id in Run(hash, ops[..n]).rows && Run(hash, ops[..n]).rows[id].isActive
    ensures var row := Run(hash, ops[..n]).rows[id];
            Lives(Run(hash, ops), id, row, EndedSince(ops, n, id, row.userId))
  {
    var m, row := |ops| - 1, Run(hash, ops[..n]).rows[id];
    if n == |ops| {
      assert ops[..n] == ops;
      ReachableKept(hash, ops);
      LivesNow(Run(hash, ops), id);
      assert !EndedSince(ops, n, id, row.userId);
    } else {
      var before := ops[..m];
      assert before[..n] == ops[..n];
      KeyLives(hash, before, n, id);
      ReachableKept(hash, before);
      StepLives(hash, Run(hash, before), ops[m], id, row, EndedSince(before, n, id, row.userId));
      EndedLast(ops, n, id, row.userId);
    }
  }

  /** The successful validations of a key in a history. */
  ghost function Validations(hash: string -> string, ops: seq<Op>, id: string): nat {
    if ops == [] then 0
    else
      var before, op := ops[..|ops| - 1], ops[|ops| - 1];
      Validations(hash, before, id)
      + if op.Validate? && OutcomeOf(hash, Run(hash, before), op) == Done(id) then 1 else 0
  }

  /** When a key was last validated. */
  ghost function LastValidation(hash: string -> string, ops: seq<Op>, id: string): Option<Time> {
    if ops == [] then None
    else
      var before, op := ops[..|ops| - 1], ops[|ops| - 1];
      if op.Validate? && OutcomeOf(hash, Run(hash, before), op) == Done(id) then Some(op.now)
      else LastValidation(hash, before, id)
  }

  /** What a step does to a usage count and to the time of the last use. */
  lemma StepUsage(hash: string -> string, s: State, op: Op, id: string)
    requires Kept(s) && Fresh(hash, s, op)
    ensures var validated := op.Validate? && OutcomeOf(hash, s, op) == Done(id);
            && (id in Step(hash, s, op).rows ==>
                  Step(hash, s, op).rows[id].usageCount
                  == (if id in s.rows then s.rows[id].usageCount else 0) + if validated then 1 else 0)
            && (id in Step(hash, s, op).rows ==>
                  Step(hash, s, op).rows[id].lastUsedAt
                  == if validated then Some(op.now) else if id in s.rows then s.rows[id].lastUsedAt else None)
            && (validated ==> id in s.rows)
            && (id in Step(hash, s, op).rows && id !in s.rows ==> forall i :: !IssuedAt(s, i, id))
  {
  }

  /** A stored key's usage count is the number of its successful validations, and it was
      last used at the last of them; a key that was never issued has had none. */
  lemma {:induction false} UsageCounts(hash: string -> string, ops: seq<Op>, id: string)
    requires FreshRun(hash, ops)
    ensures id in Run(hash, ops).rows ==> Run(hash, ops).rows[id].usageCount == Validations(hash, ops, id)
    ensures id in Run(hash, ops).rows ==> Run(hash, ops).rows[id].lastUsedAt == LastValidation(hash, ops, id)
    ensures (forall i :: !IssuedAt(Run(hash, ops), i, id)) ==>
              Validations(hash, ops, id) == 0 && LastValidation(hash, ops, id) == None
  {
    if ops == [] {
    } else {
      var m := |ops| - 1;
      var s, op := Run(hash, ops[..m]), ops[m];
      UsageCounts(hash, ops[..m], id);
      ReachableKept(hash, ops[..m]);
      StepUsage(hash, s, op, id);
      if id in s.rows { assert RowKept(s, id); }
      if exists i :: IssuedAt(s, i, id) { IssuedStays(hash, s, op, id); }
    }
  }

  /** Validation accepts exactly the stored keys that have the hash, are active and
      have not passed their expiry; it refuses a stored key that is revoked or past its
      expiry as such, and any other as unknown. */
  lemma ValidatesExactly(hash: string -> string, ops: seq<Op>, rawKey: string, now: Time)
    requires FreshRun(hash, ops)
    ensures var rows, outcome := Run(hash, ops).rows, OutcomeOf(hash, Run(hash, ops), Validate(rawKey, now));
            && (forall id :: outcome == Done(id) <==>
                  && id in rows && rows[id].keyHash == hash(rawKey)
                  && rows[id].isActive && (rows[id].expiresAt.None? || now <= rows[id].expiresAt.value))
            && (outcome == Refused(RevokedOrExpired) <==>
                  exists id :: id in rows && rows[id].keyHash == hash(rawKey)
                               && !(rows[id].isActive
                                    && (rows[id].expiresAt.None? || now <= rows[id].expiresAt.value)))
            && (outcome == Refused(InvalidKey) <==> forall id :: id in rows ==> rows[id].keyHash != hash(rawKey))
  {
    var s := Run(hash, ops);
    ReachableKept(hash, ops);
    forall id | id in s.rows && s.rows[id].keyHash == hash(rawKey)
      ensures FindByHash(s.rows, hash(rawKey)) == Some(id)
    {
      FindsHolder(s, id);
    }
  }

  /** What a new key is issued with. */
  lemma CreatedRow(hash: string -> string, ops: seq<Op>, n: nat)
    requires n < |ops| && ops[n].Create?
    ensures var op, rows := ops[n], Run(hash, ops[..n + 1]).rows;
            && op.id in rows
            && var row := rows[op.id];
               && row.keyHash == hash(op.rawKey) && row.name == Strip(op.name) && row.scopes == op.scopes
               && row.userId == op.userId && row.organizationId == op.organizationId && row.rotatedFrom == None
               && row.prefix <= op.rawKey && |row.prefix| == (if |op.rawKey| < 12 then |op.rawKey| else 12)
               && row.isActive && row.usageCount == 0 && row.lastUsedAt == None
               && (op.expiresInDays.None? ==> row.expiresAt == None)
               && (op.expiresInDays.Some? ==>
                     row.expiresAt == Some(op.now + op.expiresInDays.value * 24 * 60 * 60 * 1000))
  {
    assert ops[..n + 1][..n] == ops[..n];
  }

  /** What a key that replaces another is issued with: it expires after ninety days. */
  lemma RotatedRowIs(hash: string -> string, ops: seq<Op>, n: nat)
    requires n < |ops| && ops[n].Rotate? && FreshRun(hash, ops[..n]) && Fresh(hash, Run(hash, ops[..n]), ops[n])
    requires OutcomeOf(hash, Run(hash, ops[..n]), ops[n]).Done?
    ensures var op, before, rows := ops[n], Run(hash, ops[..n]).rows, Run(hash, ops[..n + 1]).rows;
            && op.id in before && op.newId in rows
            && var row := rows[op.newId];
               && row.keyHash == hash(op.newRawKey) && row.userId == op.userId == before[op.id].userId
               && Continues(row, before[op.id]) && row.rotatedFrom == Some(op.id)
               && row.isActive && row.usageCount == 0 && row.lastUsedAt == None
               && row.expiresAt == Some(op.now + 90 * 24 * 60 * 60 * 1000)
  {
    assert ops[..n + 1][..n] == ops[..n];
    ReachableKept(hash, ops[..n]);
    NamesStripped(Run(hash, ops[..n]), ops[n].id);
  }

  lemma {:induction false} FreshPrefix(hash: string -> string, ops: seq<Op>, n: nat)
    requires FreshRun(hash, ops) && n <= |ops|
    ensures FreshRun(hash, ops[..n])
    ensures n < |ops| ==> Fresh(hash, Run(hash, ops[..n]), ops[n])
  {
    var m := |ops| - 1;
    if n == |ops| {
      assert ops[..n] == ops;
    } else if n < m {
      assert ops[..m][..n] == ops[..n];
      FreshPrefix(hash, ops[..m], n);
    }
  }

  /** A raw key validates, in every history, from its creation until its owner revokes,
      rotates or deletes it or its days are over, and never after. */
  lemma CreatedKeyValidates(hash: string -> string, ops: seq<Op>, n: nat, now: Time)
    requires FreshRun(hash, ops) && n < |ops| && ops[n].Create?
    ensures var op := ops[n];
            OutcomeOf(hash, Run(hash, ops), Validate(op.rawKey, now)) == Done(op.id) <==>
              && !EndedSince(ops, n + 1, op.id, op.userId)
              && (op.expiresInDays.None? || now <= op.now + op.expiresInDays.value * 24 * 60 * 60 * 1000)
  {
    CreatedRow(hash, ops, n);
    KeyLives(hash, ops, n + 1, ops[n].id);
    ValidatesExactly(hash, ops, ops[n].rawKey, now);
  }

  /** The key that a rotation makes likewise validates for ninety days. */
  lemma RotatedKeyValidates(hash: string -> string, ops: seq<Op>, n: nat, now: Time)
    requires FreshRun(hash, ops) && n < |ops| && ops[n].Rotate?
    requires OutcomeOf(hash, Run(hash, ops[..n]), ops[n]).Done?
    ensures var op := ops[n];
            OutcomeOf(hash, Run(hash, ops), Validate(op.newRawKey, now)) == Done(op.newId) <==>
              !EndedSince(ops, n + 1, op.newId, op.userId) && now <= op.now + 90 * 24 * 60 * 60 * 1000
  {
    FreshPrefix(hash, ops, n);
    RotatedRowIs(hash, ops, n);
    KeyLives(hash, ops, n + 1, ops[n].newId);
    ValidatesExactly(hash, ops, ops[n].newRawKey, now);
  }

  /** The owner's requests are carried out and no one else's: a stored key can be
      revoked, rotated and deleted by its owner alone. */
  lemma OwnerOnly(hash: string -> string, s: State, op: Op)
    requires op.Revoke? || op.Rotate? || op.Delete?
    ensures var outcome := OutcomeOf(hash, s, op);
            && (outcome == Refused(NotFound) <==> op.id !in s.rows)
            && (outcome == Refused(NotAuthorized) <==> op.id in s.rows && s.rows[op.id].userId != op.userId)
            && (op.id in s.rows && s.rows[op.id].userId == op.userId ==>
                  outcome == Done(if op.Rotate? then op.newId else op.id))
  {
  }

  /** After its owner has revoked, rotated or deleted a key, no validation accepts it
      again. */
  lemma EndedKeyNeverValidates(hash: string -> string, ops: seq<Op>, n: nat, rawKey: string, now: Time)
    requires FreshRun(hash, ops) && n < |ops| && (ops[n].Revoke? || ops[n].Rotate? || ops[n].Delete?)
    requires OutcomeOf(hash, Run(hash, ops[..n]), ops[n]).Done?
    ensures OutcomeOf(hash, Run(hash, ops), Validate(rawKey, now)) != Done(ops[n].id)
  {
    EndedStaysEnded(hash, ops, n);
    ValidatesExactly(hash, ops, rawKey, now);
  }

  /** A validation, by what is found under the hash. */
  lemma ValidateCases(hash: string -> string, s: State, rawKey: string, now: Time)
    ensures var found, op := FindByHash(s.rows, hash(rawKey)), Validate(rawKey, now);
            && (found.None? ==> OutcomeOf(hash, s, op) == Refused(InvalidKey) && Step(hash, s, op) == s)
            && (found.Some? && !s.rows[found.value].IsValid(now) ==>
                  OutcomeOf(hash, s, op) == Refused(RevokedOrExpired) && Step(hash, s, op) == s)
            && (found.Some? && s.rows[found.value].IsValid(now) ==>
                  OutcomeOf(hash, s, op) == Done(found.value)
                  && Step(hash, s, op) == s.(rows := s.rows[found.value := Used(s.rows[found.value], now)]))
  {
  }

  // ----- The service itself -----

  /** Each method loads a key, changes it and saves it, and so takes the step of
      the state machine. */
  class ApiKeyService {
    const hash: string -> string
    var rows: map<string, KeyRow>
    ghost var issued: seq<Issue>

    ghost function Store(): State
      reads this
    {
      State(rows, issued)
    }

    constructor (hash: string -> string)
      ensures this.hash == hash && Store() == EMPTY && Kept(Store())
    {
      this.hash, rows, issued := hash, map[], [];
    }

    method Save(key: ApiKey)
      modifies this`rows
      ensures rows == old(rows)[key.id := key.Row()]
    {
      rows := rows[key.id := key.Row()];
    }

    /** Loading strips the name again, which changes nothing. */
    method Load(id: string) returns (key: ApiKey)
      requires Kept(Store()) && id in rows
      ensures fresh(key) && key.id == id && key.Row() == rows[id]
    {
      NamesStripped(Store(), id);
      key := new ApiKey(id, rows[id]);
    }

    method FindByKeyHash(keyHash: string) returns (r: Option<string>)
      requires Kept(Store())
      ensures r == FindByHash(rows, keyHash)
      ensures r.Some? ==> r.value in rows
    {
      var holders := Holders(rows, keyHash);
      if holders == {} {
        return None;
      }
      var id :| id in holders;
      FindsHolder(Store(), id);
      r := Some(id);
    }

    method CreateKey(id: string, rawKey: string, name: string, userId: string, organizationId: Option<string>,
                     scopes: seq<string>, expiresInDays: Option<int>, now: Time) returns (key: ApiKey)
      requires Kept(Store()) && Unused(Store(), id, hash(rawKey))
      modifies this
      ensures Kept(Store()) && key.id == id && id in rows && key.Row() == rows[id]
      ensures Store() == Step(hash, old(Store()), Create(id, rawKey, name, userId, organizationId, scopes,
                                                         expiresInDays, now))
    {
      StepKeeps(hash, Store(), Create(id, rawKey, name, userId, organizationId, scopes, expiresInDays, now));
      StripIdempotent(name);
      key := new ApiKey(id, NewRow(hash, rawKey, name, userId, organizationId, scopes, expiresInDays, now));
      Save(key);
      issued := issued + [Issue(id, key.Row())];
    }

    method ValidateKey(rawKey: string, now: Time) returns (r: Outcome)
      requires Kept(Store())
      modifies this
      ensures Kept(Store())
      ensures r == OutcomeOf(hash, old(Store()), Validate(rawKey, now))
      ensures Store() == Step(hash, old(Store()), Validate(rawKey, now))
    {
      StepKeeps(hash, Store(), Validate(rawKey, now));
      var found := FindByKeyHash(hash(rawKey));
      ValidateCases(hash, Store(), rawKey, now);
      if found.None? {
        return Refused(InvalidKey);
      }
      var id := found.value;
      var key := Load(id);
      if !key.Row().IsValid(now) {
        return Refused(RevokedOrExpired);
      }
      key.RecordUsage(now);
      Save(key);
      r := Done(id);
    }

    method RevokeKey(id: string, userId: string) returns (r: Outcome)
      requires Kept(Store())
      modifies this
      ensures Kept(Store())
      ensures r == OutcomeOf(hash, old(Store()), Revoke(id, userId))
      ensures Store() == Step(hash, old(Store()), Revoke(id, userId))
    {
      StepKeeps(hash, Store(), Revoke(id, userId));
      if id !in rows {
        return Refused(NotFound);
      }
      var key := Load(id);
      if key.userId != userId {
        return Refused(NotAuthorized);
      }
      key.Revoke();
      Save(key);
      r := Done(id);
    }

    method RotateKey(id: string, userId: string, newId: string, newRawKey: string, now: Time) returns (r: Outcome)
      requires Kept(Store()) && Unused(Store(), newId, hash(newRawKey))
      modifies this
      ensures Kept(Store())
      ensures r == OutcomeOf(hash, old(Store()), Rotate(id, userId, newId, newRawKey, now))
      ensures Store() == Step(hash, old(Store()), Rotate(id, userId, newId, newRawKey, now))
    {
      StepKeeps(hash, Store(), Rotate(id, userId, newId, newRawKey, now));
      if id !in rows {
        return Refused(NotFound);
      }
      var oldKey := Load(id);
      if oldKey.userId != userId {
        return Refused(NotAuthorized);
      }
      oldKey.Revoke();
      Save(oldKey);
      var newKey := new ApiKey(newId, NewRow(hash, newRawKey, oldKey.name, oldKey.userId, oldKey.organizationId,
                                             oldKey.scopes, Some(90), now));
      var rotatedKey := new ApiKey(newKey.id, newKey.Row().(rotatedFrom := Some(oldKey.id)));
      StripIdempotent(oldKey.name);
      Save(rotatedKey);
      issued := issued + [Issue(newId, rotatedKey.Row())];
      r := Done(newId);
    }

    method DeleteKey(id: string, userId: string) returns (r: Outcome)
      requires Kept(Store())
      modifies this
      ensures Kept(Store())
      ensures r == OutcomeOf(hash, old(Store()), Delete(id, userId))
      ensures Store() == Step(hash, old(Store()), Delete(id, userId))
    {
      StepKeeps(hash, Store(), Delete(id, userId));
      if id !in rows {
        return Refused(NotFound);
      }
      if rows[id].userId != userId {
        return Refused(NotAuthorized);
      }
      rows := rows - {id};
      r := Done(id);
    }
  }
}
