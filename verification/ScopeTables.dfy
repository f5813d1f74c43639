/** The tables that hold API keys and what they are bound to, with their foreign keys and cascades.

    A binding row has a composite primary key (API key, target) and a user column. Both of its foreign
    keys include that user, which is what `Owned` states.
 */
module ScopeTables {
  import opened Wrappers

  type Owners = map<nat, nat>                // row id to user id
  type Binds = map<(nat, nat), nat>          // (API key, target) to user id

  datatype Tables = Tables(
    users: set<nat>,
    accounts: Owners,
    externals: Owners,
    keys: Owners,
    accountBinds: Binds,
    externalBinds: Binds)

  ghost predicate BindsOwned(keys: Owners, targets: Owners, binds: Binds) {
    forall b :: b in binds ==>
      && b.0 in keys && keys[b.0] == binds[b]
      && b.1 in targets && targets[b.1] == binds[b]
  }

  ghost predicate OwnersKnown(users: set<nat>, owners: Owners) {
    forall i :: i in owners ==> owners[i] in users
  }

  /** The foreign keys: the user of a binding owns both its API key and its target. */
  ghost predicate Owned(t: Tables) {
    && OwnersKnown(t.users, t.accounts) && OwnersKnown(t.users, t.externals) && OwnersKnown(t.users, t.keys)
    && BindsOwned(t.keys, t.accounts, t.accountBinds)
    && BindsOwned(t.keys, t.externals, t.externalBinds)
  }

  /** Ids are given out in order: those in use are below the next one. */
  ghost predicate Below(owners: Owners, n: nat) {
    forall i :: i in owners ==> i < n
  }

  /** What a key is bound to. */
  function Targets(binds: Binds, key: nat): (ts: set<nat>)
    ensures forall x :: x in ts <==> (key, x) in binds
  {
    var ts := set b | b in binds && b.0 == key :: b.1;
    assert forall x :: (key, x) in binds ==> (key, x).0 == key && (key, x).1 == x;
    ts
  }

  // ---- statements ------------------------------------------------------------------------------

  function RowsOf(binds: Binds, key: nat, user: nat): set<(nat, nat)> {
    set b | b in binds && b.0 == key && binds[b] == user
  }

  function NewRows(key: nat, user: nat, ids: seq<nat>): Binds {
    map id | id in ids :: (key, id) := user
  }

  predicate AllOwned(owners: Owners, user: nat, ids: seq<nat>) {
    forall id :: id in ids ==> id in owners && owners[id] == user
  }

  /** `SELECT count(*) ... WHERE user_id = ? AND id IN ?` over a table with primary key id. */
  function CountOwned(owners: Owners, user: nat, ids: seq<nat>): nat {
    |Matching(owners, user, ids)|
  }

  function Matching(owners: Owners, user: nat, ids: seq<nat>): set<nat> {
    set id | id in owners && id in ids && owners[id] == user
  }

  /** The new rows pass the primary key. */
  ghost predicate FreshRows(binds: Binds, key: nat, ids: seq<nat>) {
    NoDup(ids) && forall id :: id in ids ==> (key, id) !in binds
  }

  /** The new rows pass both foreign keys. */
  predicate Referenced(keys: Owners, owners: Owners, key: nat, user: nat, ids: seq<nat>) {
    (ids != [] ==> key in keys && keys[key] == user) && AllOwned(owners, user, ids)
  }

  ghost predicate CanInsert(keys: Owners, owners: Owners, binds: Binds, key: nat, user: nat, ids: seq<nat>) {
    FreshRows(binds, key, ids) && Referenced(keys, owners, key, user, ids)
  }

  /** The count equals the length exactly when every id is owned and none is repeated. */
  lemma CountDecides(owners: Owners, user: nat, ids: seq<nat>)
    ensures CountOwned(owners, user, ids) <= |ids|
    ensures CountOwned(owners, user, ids) == |ids| <==> NoDup(ids) && AllOwned(owners, user, ids)
  {
    var found := Matching(owners, user, ids);
    assert found <= Elems(ids);
    SubsetCard(found, Elems(ids));
    ElemsCard(ids);
    if |found| == |ids| {
      SubsetOfSameSize(found, Elems(ids));
      forall id | id in ids ensures id in owners && owners[id] == user {
        assert id in Elems(ids);
      }
    }
    if NoDup(ids) && AllOwned(owners, user, ids) {
      assert found == Elems(ids);
    }
  }

  // ---- deletions and their cascades ------------------------------------------------------------

  function WithoutTarget(binds: Binds, target: nat): Binds {
    map b | b in binds && b.1 != target :: binds[b]
  }

  function WithoutKey(binds: Binds, key: nat): Binds {
    map b | b in binds && b.0 != key :: binds[b]
  }

  function WithoutUser(binds: Binds, user: nat): Binds {
    map b | b in binds && binds[b] != user :: binds[b]
  }

  function DropAccount(t: Tables, a: nat): Tables {
    t.(accounts := t.accounts - {a}, accountBinds := WithoutTarget(t.accountBinds, a))
  }

  function DropExternal(t: Tables, e: nat): Tables {
    t.(externals := t.externals - {e}, externalBinds := WithoutTarget(t.externalBinds, e))
  }

  function DropKey(t: Tables, k: nat): Tables {
    t.(keys := t.keys - {k},
       accountBinds := WithoutKey(t.accountBinds, k), externalBinds := WithoutKey(t.externalBinds, k))
  }

  function Disown(owners: Owners, user: nat): Owners {
    map i | i in owners && owners[i] != user :: owners[i]
  }

  function DropUser(t: Tables, u: nat): Tables {
    Tables(t.users - {u}, Disown(t.accounts, u), Disown(t.externals, u), Disown(t.keys, u),
           WithoutUser(t.accountBinds, u), WithoutUser(t.externalBinds, u))
  }

  /** Every cascade keeps ownership. */
  lemma CascadesKeepOwnership(t: Tables, x: nat)
    requires Owned(t)
    ensures Owned(DropAccount(t, x)) && Owned(DropExternal(t, x)) && Owned(DropKey(t, x)) && Owned(DropUser(t, x))
  {
    WithoutKeepsOwned(t.keys, t.accounts, t.accountBinds, x);
    WithoutKeepsOwned(t.keys, t.externals, t.externalBinds, x);
  }

  lemma WithoutKeepsOwned(keys: Owners, owners: Owners, binds: Binds, x: nat)
    requires BindsOwned(keys, owners, binds)
    ensures BindsOwned(keys, owners - {x}, WithoutTarget(binds, x))
    ensures BindsOwned(keys - {x}, owners, WithoutKey(binds, x))
    ensures BindsOwned(Disown(keys, x), Disown(owners, x), WithoutUser(binds, x))
  {
  }

  /** The bindings left are those to other targets, those of other keys, those of other users. */
  ghost predicate OnlyTargetGone(before: Binds, after: Binds, x: nat) {
    && (forall b :: b in after <==> b in before && b.1 != x)
    && (forall b :: b in after ==> after[b] == before[b])
  }

  ghost predicate OnlyKeyGone(before: Binds, after: Binds, x: nat) {
    && (forall b :: b in after <==> b in before && b.0 != x)
    && (forall b :: b in after ==> after[b] == before[b])
  }

  ghost predicate OnlyUserGone(before: Binds, after: Binds, u: nat) {
    && (forall b :: b in after <==> b in before && before[b] != u)
    && (forall b :: b in after ==> after[b] == before[b])
  }

  ghost predicate OnlyOwnGone(before: Owners, after: Owners, u: nat) {
    && (forall i :: i in after <==> i in before && before[i] != u)
    && (forall i :: i in after ==> after[i] == before[i])
  }

  /** Deleting an account takes it and the bindings to it, and nothing else. */
  lemma AccountDeletion(t: Tables, a: nat)
    ensures var d := DropAccount(t, a);
            && d.accounts == t.accounts - {a} && OnlyTargetGone(t.accountBinds, d.accountBinds, a)
            && d.users == t.users && d.externals == t.externals && d.keys == t.keys
            && d.externalBinds == t.externalBinds
  {
  }

  lemma ExternalDeletion(t: Tables, e: nat)
    ensures var d := DropExternal(t, e);
            && d.externals == t.externals - {e} && OnlyTargetGone(t.externalBinds, d.externalBinds, e)
            && d.users == t.users && d.accounts == t.accounts && d.keys == t.keys
            && d.accountBinds == t.accountBinds
  {
  }

  lemma KeyDeletion(t: Tables, k: nat)
    ensures var d := DropKey(t, k);
            && d.keys == t.keys - {k}
            && OnlyKeyGone(t.accountBinds, d.accountBinds, k) && OnlyKeyGone(t.externalBinds, d.externalBinds, k)
            && d.users == t.users && d.accounts == t.accounts && d.externals == t.externals
  {
  }

  /** Deleting a user takes everything that user owns, and nothing else. */
  lemma UserDeletion(t: Tables, u: nat)
    ensures var d := DropUser(t, u);
            && d.users == t.users - {u}
            && OnlyOwnGone(t.accounts, d.accounts, u) && OnlyOwnGone(t.externals, d.externals, u)
            && OnlyOwnGone(t.keys, d.keys, u)
            && OnlyUserGone(t.accountBinds, d.accountBinds, u) && OnlyUserGone(t.externalBinds, d.externalBinds, u)
  {
  }

  /** What a cascade leaves of the bindings of a key that stays: those whose target stays. */
  lemma CascadesKeepRest(t: Tables, x: nat, k: nat)
    requires Owned(t) && k in t.keys
    ensures Targets(DropAccount(t, x).accountBinds, k) == Targets(t.accountBinds, k) - {x}
    ensures Targets(DropExternal(t, x).externalBinds, k) == Targets(t.externalBinds, k) - {x}
    ensures Targets(DropAccount(t, x).accountBinds, k) == Targets(t.accountBinds, k) * DropAccount(t, x).accounts.Keys
    ensures Targets(DropExternal(t, x).externalBinds, k) ==
            Targets(t.externalBinds, k) * DropExternal(t, x).externals.Keys
    ensures k != x ==> Targets(DropKey(t, x).accountBinds, k) == Targets(t.accountBinds, k)
    ensures k != x ==> Targets(DropKey(t, x).externalBinds, k) == Targets(t.externalBinds, k)
    ensures t.keys[k] != x ==> Targets(DropUser(t, x).accountBinds, k) == Targets(t.accountBinds, k)
    ensures t.keys[k] != x ==> Targets(DropUser(t, x).externalBinds, k) == Targets(t.externalBinds, k)
  {
    WithoutKeepsRest(t.keys, t.accounts, t.accountBinds, x, k);
    WithoutKeepsRest(t.keys, t.externals, t.externalBinds, x, k);
  }

  lemma WithoutKeepsRest(keys: Owners, owners: Owners, binds: Binds, x: nat, k: nat)
    requires BindsOwned(keys, owners, binds) && k in keys
    ensures Targets(WithoutTarget(binds, x), k) == Targets(binds, k) * (owners - {x}).Keys
    ensures k != x ==> Targets(WithoutKey(binds, x), k) == Targets(binds, k)
    ensures keys[k] != x ==> Targets(WithoutUser(binds, x), k) == Targets(binds, k)
  {
  }
}
