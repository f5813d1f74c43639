/** The API-key repository and service as they run on their own: each transaction works on a private copy
    of the tables and publishes it at its end. `ScopeRuns` has what happens when several run at once.

    A database failure can strike any statement: `fails(n)` says whether statement number `n` fails.
 */
module ApikeyStore {
  import opened Wrappers
  import opened ScopeTables

  datatype Error = InvalidAccounts | NotFound | DuplicateRow | DatabaseFailure

  datatype Row = Row(user: nat, key: nat, target: nat)

  const MAX_ID := 9223372036854775807

  predicate ValidId(id: nat) {
    0 < id <= MAX_ID
  }

  // ---- lists of ids ----------------------------------------------------------------------------

  /** The first occurrence of every element, in order. */
  function Distinct(ids: seq<nat>): seq<nat> {
    if ids == [] then []
    else
      var d := Distinct(ids[..|ids| - 1]);
      var x := ids[|ids| - 1];
      if x in d then d else d + [x]
  }

  function FirstIndex(ids: seq<nat>, x: nat): nat {
    if ids == [] || ids[0] == x then 0 else 1 + FirstIndex(ids[1..], x)
  }

  method Dedupe(ids: seq<nat>) returns (r: Option<seq<nat>>)
    ensures r.Some? <==> forall id :: id in ids ==> 0 < id < 0x8000_0000_0000_0000
    ensures r.Some? ==> r.value == Distinct(ids)
  {
    var list: seq<nat> := [];
    var seen: set<nat> := {};
    for i := 0 to |ids|
      invariant list == Distinct(ids[..i])
      invariant seen == Elems(list)
      invariant forall id :: id in ids[..i] ==> ValidId(id)
    {
      var id := ids[i];
      assert ids[..i + 1] == ids[..i] + [id];
      assert ids[..i + 1][..i] == ids[..i];
      if id == 0 || id > MAX_ID {
        assert id in ids;
        return None;
      }
      if id !in seen {
        list := list + [id];
        seen := seen + {id};
      }
    }
    assert ids[..|ids|] == ids;
    r := Some(list);
  }

  lemma {:induction false} FirstIndexAppend(ids: seq<nat>, y: nat, x: nat)
    ensures x in ids ==> FirstIndex(ids + [y], x) == FirstIndex(ids, x) < |ids|
    ensures x !in ids ==> FirstIndex(ids, x) == |ids|
    ensures x !in ids && x == y ==> FirstIndex(ids + [y], x) == |ids|
  {
    if ids == [] {
    } else {
      assert (ids + [y])[1..] == ids[1..] + [y];
      FirstIndexAppend(ids[1..], y, x);
    }
  }

  /** The same set, without repetitions, in the order of first occurrence. */
  lemma {:induction false} DistinctKeepsOrder(ids: seq<nat>)
    ensures NoDup(Distinct(ids))
    ensures Elems(Distinct(ids)) == Elems(ids)
    ensures forall i, j :: 0 <= i < j < |Distinct(ids)| ==>
              FirstIndex(ids, Distinct(ids)[i]) < FirstIndex(ids, Distinct(ids)[j])
  {
    if ids == [] {
    } else {
      var p := ids[..|ids| - 1];
      var x := ids[|ids| - 1];
      DistinctKeepsOrder(p);
      assert ids == p + [x];
      assert Elems(ids) == Elems(p) + {x};
      var d := Distinct(p);
      assert x in d <==> x in Elems(d);
      forall y | y in d ensures FirstIndex(ids, y) == FirstIndex(p, y) < |p| {
        assert y in Elems(d);
        FirstIndexAppend(p, x, y);
      }
      FirstIndexAppend(p, x, x);
      if x !in d {
        assert Elems(d + [x]) == Elems(d) + {x};
      }
    }
  }

  /** The count test accepts a deduplicated list exactly when every requested id is owned. */
  lemma CountAcceptsOwned(owners: Owners, user: nat, requested: seq<nat>)
    ensures CountOwned(owners, user, Distinct(requested)) == |Distinct(requested)| <==>
            AllOwned(owners, user, requested)
  {
    var d := Distinct(requested);
    DistinctKeepsOrder(requested);
    CountDecides(owners, user, d);
    assert forall id :: id in d <==> id in Elems(d);
    assert forall id :: id in requested <==> id in Elems(requested);
  }

  // ---- rows ------------------------------------------------------------------------------------

  method ToRows(user: nat, ids: seq<nat>) returns (rows: array<Row>)
    ensures fresh(rows) && rows[..] == seq(|ids|, i requires 0 <= i < |ids| => Row(user, 0, ids[i]))
  {
    rows := new Row[|ids|](i requires 0 <= i < |ids| => Row(user, 0, ids[i]));
  }

  method SetKey(rows: array<Row>, user: nat, key: nat)
    modifies rows
    ensures forall i :: 0 <= i < rows.Length ==> rows[i] == Row(user, key, old(rows[i].target))
  {
    for i := 0 to rows.Length
      invariant forall k :: 0 <= k < i ==> rows[k] == Row(user, key, old(rows[k].target))
      invariant forall k :: i <= k < rows.Length ==> rows[k] == old(rows[k])
    {
      rows[i] := rows[i].(key := key, user := user);
    }
  }

  /** A row that is there already stops the statement; missing references are found at its end. */
  ghost function InsertVerdict(keys: Owners, owners: Owners, binds: Binds, key: nat, user: nat, ids: seq<nat>)
    : Option<Error>
  {
    if !FreshRows(binds, key, ids) then Some(DuplicateRow)
    else if !Referenced(keys, owners, key, user, ids) then Some(InvalidAccounts)
    else None
  }

  /** Inserts rows one by one; a violated key rejects the statement as a whole. */
  method Insert(keys: Owners, owners: Owners, binds: Binds, rows: array<Row>, key: nat, user: nat, ids: seq<nat>)
    returns (err: Option<Error>, after: Binds)
    requires rows.Length == |ids| && forall i :: 0 <= i < |ids| ==> rows[i] == Row(user, key, ids[i])
    ensures err == InsertVerdict(keys, owners, binds, key, user, ids)
    ensures after == if err.None? then binds + NewRows(key, user, ids) else binds
  {
    after := binds;
    var orphan := false;
    for i := 0 to rows.Length
      invariant FreshRows(binds, key, ids[..i])
      invariant orphan <==> !Referenced(keys, owners, key, user, ids[..i])
      invariant after == binds + NewRows(key, user, ids[..i])
    {
      var row := rows[i];
      assert ids[..i + 1] == ids[..i] + [ids[i]];
      if (row.key, row.target) in after {
        TakenRow(binds, key, user, ids, i);
        return Some(DuplicateRow), binds;
      }
      FreshRow(binds, key, user, ids[..i], ids[i]);
      ReferencedSnoc(keys, owners, key, user, ids[..i], ids[i]);
      if row.key !in keys || keys[row.key] != row.user || row.target !in owners || owners[row.target] != row.user {
        orphan := true;
      }
      after := after[(row.key, row.target) := row.user];
    }
    assert ids[..|ids|] == ids;
    if orphan {
      return Some(InvalidAccounts), binds;
    }
    err := None;
  }

  lemma TakenRow(binds: Binds, key: nat, user: nat, ids: seq<nat>, i: nat)
    requires i < |ids| && (key, ids[i]) in binds + NewRows(key, user, ids[..i])
    ensures !FreshRows(binds, key, ids)
  {
    if (key, ids[i]) in NewRows(key, user, ids[..i]) {
      var j :| 0 <= j < i && ids[..i][j] == ids[i];
      assert ids[j] == ids[i];
    }
  }

  lemma FreshRow(binds: Binds, key: nat, user: nat, ids: seq<nat>, x: nat)
    requires FreshRows(binds, key, ids) && (key, x) !in binds + NewRows(key, user, ids)
    ensures FreshRows(binds, key, ids + [x])
    ensures binds + NewRows(key, user, ids + [x]) == (binds + NewRows(key, user, ids))[(key, x) := user]
  {
    assert x !in ids by {
      assert forall y :: y in ids ==> (key, y) in NewRows(key, user, ids);
    }
    FreshSnoc(binds, key, ids, x);
    NewRowsSnoc(key, user, ids, x);
    assert binds + NewRows(key, user, ids)[(key, x) := user] == (binds + NewRows(key, user, ids))[(key, x) := user];
  }

  lemma FreshSnoc(binds: Binds, key: nat, ids: seq<nat>, x: nat)
    requires FreshRows(binds, key, ids) && x !in ids && (key, x) !in binds
    ensures FreshRows(binds, key, ids + [x])
  {
    assert forall id :: id in ids + [x] <==> id in ids || id == x;
  }

  lemma ReferencedSnoc(keys: Owners, owners: Owners, key: nat, user: nat, ids: seq<nat>, x: nat)
    ensures Referenced(keys, owners, key, user, ids + [x]) <==>
            Referenced(keys, owners, key, user, ids) && Referenced(keys, owners, key, user, [x])
  {
    assert forall id :: id in ids + [x] <==> id in ids || id == x;
  }

  lemma NewRowsSnoc(key: nat, user: nat, ids: seq<nat>, x: nat)
    ensures NewRows(key, user, ids + [x]) == NewRows(key, user, ids)[(key, x) := user]
  {
    assert forall id :: id in ids + [x] <==> id in ids || id == x;
  }

  /** The rows of a key, if it gets any, are built, given their key, and inserted. */
  method BindAll(keys: Owners, owners: Owners, binds: Binds, key: nat, user: nat, ids: seq<nat>, fails: bool)
    returns (err: Option<Error>, after: Binds)
    ensures err == if ids == [] then None
                   else if fails then Some(DatabaseFailure)
                   else InsertVerdict(keys, owners, binds, key, user, ids)
    ensures after == if err.None? then binds + NewRows(key, user, ids) else binds
  {
    var rows := ToRows(user, ids);
    assert forall i :: 0 <= i < rows.Length ==> rows[i] == rows[..][i];
    SetKey(rows, user, key);
    if rows.Length == 0 {
      assert binds + NewRows(key, user, ids) == binds;
      return None, binds;
    }
    if fails {
      return Some(DatabaseFailure), binds;
    }
    err, after := Insert(keys, owners, binds, rows, key, user, ids);
  }

  // ---- the repository --------------------------------------------------------------------------

  /** The tables after a replacement: the key has exactly the given bindings, nothing else differs. */
  ghost predicate Rebound(before: Tables, after: Tables, key: nat, user: nat, ids: seq<nat>, externals: seq<nat>) {
    && after.users == before.users && after.accounts == before.accounts && after.externals == before.externals
    && Targets(after.accountBinds, key) == Elems(ids)
    && Targets(after.externalBinds, key) == Elems(externals)
    && OtherRowsSame(before.accountBinds, after.accountBinds, key)
    && OtherRowsSame(before.externalBinds, after.externalBinds, key)
  }

  ghost predicate OtherRowsSame(before: Binds, after: Binds, key: nat) {
    forall b: (nat, nat) :: b.0 != key ==>
      (b in after <==> b in before) && (b in after ==> after[b] == before[b])
  }

  /** What the repository answers when no statement fails. */
  ghost function ReplaceVerdict(t: Tables, user: nat, key: nat, ids: seq<nat>, externals: seq<nat>): Option<Error> {
    if ids == [] && externals == [] then Some(InvalidAccounts)
    else if key !in t.keys || t.keys[key] != user then Some(NotFound)
    else if NoDup(ids) && AllOwned(t.accounts, user, ids) &&
            NoDup(externals) && AllOwned(t.externals, user, externals) then None
    else Some(InvalidAccounts)
  }

  ghost function SaveVerdict(t: Tables, user: nat, ids: seq<nat>, externals: seq<nat>): Option<Error> {
    if ids == [] && externals == [] then Some(InvalidAccounts)
    else if user !in t.users then Some(InvalidAccounts)
    else if RowsVerdict(t.accounts, user, ids).Some? then RowsVerdict(t.accounts, user, ids)
    else RowsVerdict(t.externals, user, externals)
  }

  /** What becomes of an insert for a key that has no rows: it depends on the ids alone. */
  ghost function RowsVerdict(owners: Owners, user: nat, ids: seq<nat>): Option<Error> {
    if !NoDup(ids) then Some(DuplicateRow) else if !AllOwned(owners, user, ids) then Some(InvalidAccounts) else None
  }

  /** Every id belongs to the user and none is named twice. */
  ghost predicate OwnedOnce(owners: Owners, user: nat, ids: seq<nat>) {
    && (forall i :: 0 <= i < |ids| ==> ids[i] in owners && owners[ids[i]] == user)
    && (forall i, j :: 0 <= i < j < |ids| ==> ids[i] != ids[j])
  }

  /** A replacement is refused without ids, for a key that is not the user's, and for an id that is not or is
      named twice. */
  lemma ReplaceAnswers(t: Tables, user: nat, key: nat, ids: seq<nat>, externals: seq<nat>)
    ensures var v := ReplaceVerdict(t, user, key, ids, externals);
            if |ids| == 0 && |externals| == 0 then v == Some(InvalidAccounts)
            else if !(key in t.keys && t.keys[key] == user) then v == Some(NotFound)
            else if OwnedOnce(t.accounts, user, ids) && OwnedOnce(t.externals, user, externals) then v == None
            else v == Some(InvalidAccounts)
  {
  }

  /** A creation is refused without ids, for an unknown user, for an id named twice, and for one that is not
      the user's. */
  lemma SaveAnswers(t: Tables, user: nat, ids: seq<nat>, externals: seq<nat>)
    ensures var v := SaveVerdict(t, user, ids, externals);
            if (|ids| == 0 && |externals| == 0) || user !in t.users then v == Some(InvalidAccounts)
            else if exists i, j :: 0 <= i < j < |ids| && ids[i] == ids[j] then v == Some(DuplicateRow)
            else if !OwnedOnce(t.accounts, user, ids) then v == Some(InvalidAccounts)
            else if exists i, j :: 0 <= i < j < |externals| && externals[i] == externals[j] then v == Some(DuplicateRow)
            else if !OwnedOnce(t.externals, user, externals) then v == Some(InvalidAccounts)
            else v == None
  {
  }

  class Database {
    var t: Tables
    var nextKey: nat

    method ReplaceApikeyAccounts(user: nat, id: nat, ids: seq<nat>, externals: seq<nat>, fails: nat -> bool)
      returns (err: Option<Error>)
      requires Owned(t)
      modifies this
      ensures Owned(t) && nextKey == old(nextKey)
      ensures err.Some? ==> t == old(t)
      ensures err.None? ==> t.keys == old(t.keys) && Rebound(old(t), t, id, user, ids, externals)
      ensures || err == ReplaceVerdict(old(t), user, id, ids, externals)
              || (err == Some(DatabaseFailure) && exists n :: fails(n))
    {
      if |ids| == 0 && |externals| == 0 {
        return Some(InvalidAccounts);
      }
      var tx := t;
      var binds: Binds;
      if fails(0) {
        return Some(DatabaseFailure);
      }
      if id !in tx.keys || tx.keys[id] != user {
        return Some(NotFound);
      }
      if fails(1) {
        return Some(DatabaseFailure);
      }
      CountDecides(tx.accounts, user, ids);
      if CountOwned(tx.accounts, user, ids) != |ids| {
        return Some(InvalidAccounts);
      }
      if fails(2) {
        return Some(DatabaseFailure);
      }
      tx := tx.(accountBinds := tx.accountBinds - RowsOf(tx.accountBinds, id, user));
      ClearedInsert(t.keys, t.accounts, t.accountBinds, id, user, ids);
      err, binds := BindAll(tx.keys, tx.accounts, tx.accountBinds, id, user, ids, fails(3));
      if err.Some? {
        return;
      }
      tx := tx.(accountBinds := binds);
      CountDecides(tx.externals, user, externals);
      if |externals| > 0 {
        if fails(4) {
          return Some(DatabaseFailure);
        }
        if CountOwned(tx.externals, user, externals) != |externals| {
          return Some(InvalidAccounts);
        }
      }
      if fails(5) {
        return Some(DatabaseFailure);
      }
      tx := tx.(externalBinds := tx.externalBinds - RowsOf(tx.externalBinds, id, user));
      ClearedInsert(t.keys, t.externals, t.externalBinds, id, user, externals);
      err, binds := BindAll(tx.keys, tx.externals, tx.externalBinds, id, user, externals, fails(6));
      if err.Some? {
        return;
      }
      tx := tx.(externalBinds := binds);
      if fails(7) {
        return Some(DatabaseFailure);
      }
      Rewritten(t, id, user, ids, externals);
      t := tx;
      return None;
    }

    method SaveApikey(user: nat, ids: seq<nat>, externals: seq<nat>, fails: nat -> bool)
      returns (err: Option<Error>, key: nat)
      requires Owned(t) && Below(t.keys, nextKey)
      modifies this
      ensures Owned(t) && Below(t.keys, nextKey)
      ensures err.Some? ==> t == old(t)
      ensures err.None? ==> key == old(nextKey) && t.keys == old(t.keys)[key := user] &&
                            Rebound(old(t), t, key, user, ids, externals)
      ensures || err == SaveVerdict(old(t), user, ids, externals)
              || (err == Some(DatabaseFailure) && exists n :: fails(n))
    {
      key := nextKey;
      if |ids| == 0 && |externals| == 0 {
        return Some(InvalidAccounts), key;
      }
      var tx := t;
      var binds: Binds;
      nextKey := nextKey + 1;
      if fails(0) {
        return Some(DatabaseFailure), key;
      }
      if user !in tx.users {
        return Some(InvalidAccounts), key;
      }
      tx := tx.(keys := tx.keys[key := user]);
      NewKeyInsert(t.keys, t.accounts, t.accountBinds, key, user, ids);
      err, binds := BindAll(tx.keys, tx.accounts, tx.accountBinds, key, user, ids, fails(1));
      if err.Some? {
        return;
      }
      tx := tx.(accountBinds := binds);
      NewKeyInsert(t.keys, t.externals, t.externalBinds, key, user, externals);
      err, binds := BindAll(tx.keys, tx.externals, tx.externalBinds, key, user, externals, fails(2));
      if err.Some? {
        return;
      }
      tx := tx.(externalBinds := binds);
      Saved(t, key, user, ids, externals);
      t := tx;
      return None, key;
    }

    method DeleteApikey(user: nat, id: nat, fails: bool) returns (err: Option<Error>)
      requires Owned(t)
      modifies this`t
      ensures Owned(t)
      ensures err == if fails then Some(DatabaseFailure)
                     else if id in old(t.keys) && old(t.keys)[id] == user then None else Some(NotFound)
      ensures err.Some? ==> t == old(t)
      ensures err.None? ==>
                && t.users == old(t.users) && t.accounts == old(t.accounts) && t.externals == old(t.externals)
                && t.keys == old(t.keys) - {id}
                && Targets(t.accountBinds, id) == {} && Targets(t.externalBinds, id) == {}
                && OtherRowsSame(old(t.accountBinds), t.accountBinds, id)
                && OtherRowsSame(old(t.externalBinds), t.externalBinds, id)
    {
      if fails {
        return Some(DatabaseFailure);
      }
      if id !in t.keys || t.keys[id] != user {
        return Some(NotFound);
      }
      CascadesKeepOwnership(t, id);
      t := DropKey(t, id);
      return None;
    }

    // ---- the service ---------------------------------------------------------------------------

    /** Repetitions in the request are dropped; everything else about it is checked. */
    method ReplaceScope(user: nat, id: nat, requested: seq<nat>, requestedExternals: seq<nat>, fails: nat -> bool)
      returns (err: Option<Error>)
      requires Owned(t)
      modifies this
      ensures Owned(t)
      ensures err.Some? ==> t == old(t)
      ensures err.None? ==> Rebound(old(t), t, id, user, requested, requestedExternals)
      ensures (forall n :: !fails(n)) ==>
                (err.None? <==> && (requested != [] || requestedExternals != [])
                                && (forall x :: x in requested ==> 0 < x < 0x8000_0000_0000_0000)
                                && (forall x :: x in requestedExternals ==> 0 < x < 0x8000_0000_0000_0000)
                                && id in old(t.keys) && old(t.keys)[id] == user
                                && AllOwned(old(t.accounts), user, requested)
                                && AllOwned(old(t.externals), user, requestedExternals))
      ensures err == Some(DatabaseFailure) ==> exists n :: fails(n)
      ensures err == Some(NotFound) ==> id !in old(t.keys) || old(t.keys)[id] != user
      ensures err in [None, Some(NotFound), Some(InvalidAccounts), Some(DatabaseFailure)]
    {
      var ids := Dedupe(requested);
      if ids.None? {
        return Some(InvalidAccounts);
      }
      if |ids.value| == 0 && |requestedExternals| == 0 {
        DistinctNonEmpty(requested);
        return Some(InvalidAccounts);
      }
      var externals := Dedupe(requestedExternals);
      if externals.None? {
        return Some(InvalidAccounts);
      }
      DistinctNonEmpty(requested);
      DistinctNonEmpty(requestedExternals);
      DistinctOwned(t.accounts, user, requested);
      DistinctOwned(t.externals, user, requestedExternals);
      err := ReplaceApikeyAccounts(user, id, ids.value, externals.value, fails);
    }

    /** Ownership is checked first, in statements of their own (`fails(3)` and `fails(4)`). */
    method CreatApikey(user: nat, requested: seq<nat>, requestedExternals: seq<nat>, fails: nat -> bool)
      returns (err: Option<Error>, key: nat)
      requires Owned(t) && Below(t.keys, nextKey)
      modifies this
      ensures Owned(t) && Below(t.keys, nextKey)
      ensures err.Some? ==> t == old(t)
      ensures err.None? ==> key !in old(t.keys) && t.keys == old(t.keys)[key := user] &&
                            Rebound(old(t), t, key, user, requested, requestedExternals)
      ensures (forall n :: !fails(n)) ==>
                (err.None? <==> && 0 < user < 0x8000_0000_0000_0000 && user in old(t.users)
                                && (requested != [] || requestedExternals != [])
                                && (forall x :: x in requested ==> 0 < x < 0x8000_0000_0000_0000)
                                && (forall x :: x in requestedExternals ==> 0 < x < 0x8000_0000_0000_0000)
                                && AllOwned(old(t.accounts), user, requested)
                                && AllOwned(old(t.externals), user, requestedExternals))
      ensures err == Some(DatabaseFailure) ==> exists n :: fails(n)
      ensures err in [None, Some(InvalidAccounts), Some(DatabaseFailure)]
    {
      key := 0;
      if user == 0 || user > MAX_ID || (|requested| == 0 && |requestedExternals| == 0) {
        return Some(InvalidAccounts), key;
      }
      var ids := Dedupe(requested);
      if ids.None? {
        return Some(InvalidAccounts), key;
      }
      CountAcceptsOwned(t.accounts, user, requested);
      if |ids.value| > 0 {
        if fails(3) {
          return Some(DatabaseFailure), key;
        }
        if CountOwned(t.accounts, user, ids.value) != |ids.value| {
          return Some(InvalidAccounts), key;
        }
      }
      var externals := Dedupe(requestedExternals);
      if externals.None? {
        return Some(InvalidAccounts), key;
      }
      CountAcceptsOwned(t.externals, user, requestedExternals);
      if |externals.value| > 0 {
        if fails(4) {
          return Some(DatabaseFailure), key;
        }
        if CountOwned(t.externals, user, externals.value) != |externals.value| {
          return Some(InvalidAccounts), key;
        }
      }
      DistinctNonEmpty(requested);
      DistinctNonEmpty(requestedExternals);
      DistinctOwned(t.accounts, user, requested);
      DistinctOwned(t.externals, user, requestedExternals);
      err, key := SaveApikey(user, ids.value, externals.value, fails);
    }
  }

  /** `Rebound` leaves nothing open: there is one table state that satisfies it. */
  lemma ReboundIsExact(before: Tables, a: Tables, b: Tables, key: nat, user: nat, ids: seq<nat>, externals: seq<nat>)
    requires Owned(a) && Owned(b) && a.keys == b.keys
    requires Rebound(before, a, key, user, ids, externals) && Rebound(before, b, key, user, ids, externals)
    ensures a == b
  {
    SameBinds(before.accountBinds, a.accountBinds, b.accountBinds, a.keys, a.accounts, key);
    SameBinds(before.externalBinds, a.externalBinds, b.externalBinds, a.keys, a.externals, key);
  }

  lemma SameBinds(before: Binds, a: Binds, b: Binds, keys: Owners, owners: Owners, key: nat)
    requires BindsOwned(keys, owners, a) && BindsOwned(keys, owners, b)
    requires OtherRowsSame(before, a, key) && OtherRowsSame(before, b, key) && Targets(a, key) == Targets(b, key)
    ensures a == b
  {
    forall r: (nat, nat) ensures r in a <==> r in b {
      if r.0 == key {
        assert r == (key, r.1);
        assert r.1 in Targets(a, key) <==> r.1 in Targets(b, key);
      }
    }
  }

  lemma RowsReplaced(keys: Owners, owners: Owners, binds: Binds, key: nat, user: nat, ids: seq<nat>)
    requires BindsOwned(keys, owners, binds) && key in keys && keys[key] == user && AllOwned(owners, user, ids)
    ensures var after := binds - RowsOf(binds, key, user) + NewRows(key, user, ids);
            BindsOwned(keys, owners, after) && Targets(after, key) == Elems(ids) && OtherRowsSame(binds, after, key)
  {
    var after := binds - RowsOf(binds, key, user) + NewRows(key, user, ids);
    forall x: nat ensures (key, x) in after <==> x in ids {
    }
  }

  /** Once a key has been cleared, what decides an insert is the list of ids alone. */
  lemma ClearedInsert(keys: Owners, owners: Owners, binds: Binds, key: nat, user: nat, ids: seq<nat>)
    requires BindsOwned(keys, owners, binds) && key in keys && keys[key] == user
    ensures var cleared := binds - RowsOf(binds, key, user);
            && InsertVerdict(keys, owners, cleared, key, user, ids) == RowsVerdict(owners, user, ids)
            && (ids == [] ==> cleared + NewRows(key, user, ids) == cleared)
  {
  }

  lemma NewKeyInsert(keys: Owners, owners: Owners, binds: Binds, key: nat, user: nat, ids: seq<nat>)
    requires BindsOwned(keys, owners, binds) && key !in keys
    ensures InsertVerdict(keys[key := user], owners, binds, key, user, ids) == RowsVerdict(owners, user, ids)
    ensures ids == [] ==> binds + NewRows(key, user, ids) == binds && RowsVerdict(owners, user, ids) == None
  {
  }

  lemma RowsAdded(keys: Owners, owners: Owners, binds: Binds, key: nat, user: nat, ids: seq<nat>)
    requires BindsOwned(keys, owners, binds) && key !in keys && AllOwned(owners, user, ids)
    ensures var after := binds + NewRows(key, user, ids);
            && BindsOwned(keys[key := user], owners, after)
            && Targets(after, key) == Elems(ids) && OtherRowsSame(binds, after, key)
  {
    var after := binds + NewRows(key, user, ids);
    forall x: nat ensures (key, x) in after <==> x in ids {
    }
  }

  lemma Rewritten(before: Tables, key: nat, user: nat, ids: seq<nat>, externals: seq<nat>)
    requires Owned(before) && key in before.keys && before.keys[key] == user
    requires AllOwned(before.accounts, user, ids) && AllOwned(before.externals, user, externals)
    ensures var a, e := before.accountBinds, before.externalBinds;
            var after := before.(accountBinds := a - RowsOf(a, key, user) + NewRows(key, user, ids),
                                 externalBinds := e - RowsOf(e, key, user) + NewRows(key, user, externals));
            Owned(after) && Rebound(before, after, key, user, ids, externals)
  {
    RowsReplaced(before.keys, before.accounts, before.accountBinds, key, user, ids);
    RowsReplaced(before.keys, before.externals, before.externalBinds, key, user, externals);
  }

  lemma Saved(before: Tables, key: nat, user: nat, ids: seq<nat>, externals: seq<nat>)
    requires Owned(before) && key !in before.keys && user in before.users
    requires AllOwned(before.accounts, user, ids) && AllOwned(before.externals, user, externals)
    ensures var after := before.(keys := before.keys[key := user],
                                 accountBinds := before.accountBinds + NewRows(key, user, ids),
                                 externalBinds := before.externalBinds + NewRows(key, user, externals));
            Owned(after) && Rebound(before, after, key, user, ids, externals)
  {
    RowsAdded(before.keys, before.accounts, before.accountBinds, key, user, ids);
    RowsAdded(before.keys, before.externals, before.externalBinds, key, user, externals);
  }

  lemma DistinctNonEmpty(ids: seq<nat>)
    ensures Distinct(ids) == [] <==> ids == []
    ensures Elems(Distinct(ids)) == Elems(ids) && NoDup(Distinct(ids))
  {
    DistinctKeepsOrder(ids);
    if ids != [] {
      assert ids[0] in Elems(ids);
    }
  }

  lemma DistinctOwned(owners: Owners, user: nat, ids: seq<nat>)
    ensures AllOwned(owners, user, Distinct(ids)) <==> AllOwned(owners, user, ids)
  {
    DistinctKeepsOrder(ids);
    assert forall id :: id in Distinct(ids) <==> id in Elems(Distinct(ids));
    assert forall id :: id in ids <==> id in Elems(ids);
  }
}
