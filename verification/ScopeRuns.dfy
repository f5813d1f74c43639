/** Concurrent scope replacements, key creations and deletions over the committed tables.

    A transaction executes one statement at a time. It reads what is committed and keeps its own writes
    to itself until it commits; it may fail at any statement. The only locks are those the statements
    take: the key row locked for update, and the rows an insert refers to, which cannot be deleted
    until the transaction ends.
 */
module ScopeRuns {
  import opened Wrappers
  import opened ScopeTables

  datatype Job = Replace | Save

  /** The statement executed last. A creation has nothing to lock, count or clear: it makes its key and goes
      on at `ClearedA`, then from `FilledA` to `FilledE`. */
  datatype Stage = Begun | Locked | CountedA | ClearedA | FilledA | CountedE | ClearedE | FilledE | Touched
  {
    function Rank(): nat {
      match this
      case Begun => 0
      case Locked => 1
      case CountedA => 2
      case ClearedA => 3
      case FilledA => 4
      case CountedE => 5
      case ClearedE => 6
      case FilledE => 7
      case Touched => 8
    }

    predicate AtLeast(other: Stage) {
      Rank() >= other.Rank()
    }
  }

  datatype Tx = Tx(
    job: Job, user: nat, key: nat, ids: seq<nat>, externals: seq<nat>,
    stage: Stage,
    goneA: set<(nat, nat)>, goneE: set<(nat, nat)>)      // rows deleted but not yet committed

  datatype State = State(db: Tables, txs: map<nat, Tx>, nextKey: nat, nextAccount: nat, nextExternal: nat)

  /** What a step shows from outside: the scope it committed, or nothing. */
  datatype Label = Quiet | Committed(key: nat, accounts: set<nat>, externals: set<nat>)

  // ---- locks -----------------------------------------------------------------------------------

  predicate LocksKey(tx: Tx, k: nat) {
    tx.job == Replace && tx.stage.AtLeast(Locked) && tx.key == k
  }

  predicate LocksAccount(tx: Tx, a: nat) {
    tx.stage.AtLeast(FilledA) && a in tx.ids
  }

  predicate LocksExternal(tx: Tx, e: nat) {
    tx.stage.AtLeast(FilledE) && e in tx.externals
  }

  // ---- steps -----------------------------------------------------------------------------------

  ghost predicate Executes(s: State, tx: Tx, n: Tx) {
    var db := s.db;
    match tx.job
    case Replace =>
      if tx.stage == Begun then
        && tx.key in db.keys && db.keys[tx.key] == tx.user
        && (forall i :: i in s.txs ==> !LocksKey(s.txs[i], tx.key))
        && n == tx.(stage := Locked)
      else if tx.stage == Locked then
        CountOwned(db.accounts, tx.user, tx.ids) == |tx.ids| && n == tx.(stage := CountedA)
      else if tx.stage == CountedA then
        n == tx.(stage := ClearedA, goneA := RowsOf(db.accountBinds, tx.key, tx.user))
      else if tx.stage == ClearedA then
        && CanInsert(db.keys, db.accounts, db.accountBinds - tx.goneA, tx.key, tx.user, tx.ids)
        && n == tx.(stage := FilledA)
      else if tx.stage == FilledA then
        && (tx.externals != [] ==> CountOwned(db.externals, tx.user, tx.externals) == |tx.externals|)
        && n == tx.(stage := CountedE)
      else if tx.stage == CountedE then
        n == tx.(stage := ClearedE, goneE := RowsOf(db.externalBinds, tx.key, tx.user))
      else if tx.stage == ClearedE then
        && CanInsert(db.keys, db.externals, db.externalBinds - tx.goneE, tx.key, tx.user, tx.externals)
        && n == tx.(stage := FilledE)
      else tx.stage == FilledE && n == tx.(stage := Touched)
    case Save =>
      var keys := db.keys[tx.key := tx.user];
      if tx.stage == Begun then
        tx.user in db.users && n == tx.(stage := ClearedA, key := s.nextKey)
      else if tx.stage == ClearedA then
        CanInsert(keys, db.accounts, db.accountBinds, tx.key, tx.user, tx.ids) && n == tx.(stage := FilledA)
      else
        && tx.stage == FilledA && CanInsert(keys, db.externals, db.externalBinds, tx.key, tx.user, tx.externals)
        && n == tx.(stage := FilledE)
  }

  predicate ReadyToCommit(tx: Tx) {
    match tx.job case Replace => tx.stage == Touched case Save => tx.stage == FilledE
  }

  function Published(db: Tables, tx: Tx): Tables {
    db.(keys := db.keys[tx.key := tx.user],
        accountBinds := db.accountBinds - tx.goneA + NewRows(tx.key, tx.user, tx.ids),
        externalBinds := db.externalBinds - tx.goneE + NewRows(tx.key, tx.user, tx.externals))
  }

  ghost predicate Begins(s: State, t: State, i: nat) {
    && i !in s.txs && i in t.txs
    && (t.txs[i].ids != [] || t.txs[i].externals != [])
    && t.txs[i].stage == Begun && t.txs[i].goneA == {} && t.txs[i].goneE == {}
    && t == s.(txs := s.txs[i := t.txs[i]])
  }

  ghost predicate Proceeds(s: State, t: State, i: nat) {
    && i in s.txs && i in t.txs && Executes(s, s.txs[i], t.txs[i])
    && t == s.(txs := s.txs[i := t.txs[i]],
               nextKey := if s.txs[i].job == Save && s.txs[i].stage == Begun then s.nextKey + 1 else s.nextKey)
  }

  ghost predicate Aborts(s: State, t: State, i: nat) {
    i in s.txs && t == s.(txs := s.txs - {i})
  }

  ghost predicate Commits(s: State, t: State, i: nat) {
    i in s.txs && ReadyToCommit(s.txs[i]) && t == s.(db := Published(s.db, s.txs[i]), txs := s.txs - {i})
  }

  /** Rows come and go by other requests; a deletion waits for the locks on what it deletes. */
  datatype Change = NewUser | NewAccount | NewExternal | LoseAccount | LoseExternal | LoseKey | LoseUser

  ghost predicate Allowed(s: State, c: Change, x: nat) {
    match c
    case NewUser => true
    case NewAccount => x in s.db.users
    case NewExternal => x in s.db.users
    case LoseAccount => forall i :: i in s.txs ==> !LocksAccount(s.txs[i], x)
    case LoseExternal => forall i :: i in s.txs ==> !LocksExternal(s.txs[i], x)
    case LoseKey => forall i :: i in s.txs ==> !LocksKey(s.txs[i], x)
    case LoseUser => forall i :: i in s.txs && s.txs[i].user == x ==> s.txs[i].stage == Begun
  }

  function Changed(s: State, c: Change, x: nat): State {
    var db := s.db;
    match c
    case NewUser => s.(db := db.(users := db.users + {x}))
    case NewAccount => s.(db := db.(accounts := db.accounts[s.nextAccount := x]), nextAccount := s.nextAccount + 1)
    case NewExternal =>
      s.(db := db.(externals := db.externals[s.nextExternal := x]), nextExternal := s.nextExternal + 1)
    case LoseAccount => s.(db := DropAccount(db, x))
    case LoseExternal => s.(db := DropExternal(db, x))
    case LoseKey => s.(db := DropKey(db, x))
    case LoseUser => s.(db := DropUser(db, x))
  }

  ghost predicate Elsewhere(s: State, t: State, x: nat) {
    exists c :: Allowed(s, c, x) && t == Changed(s, c, x)
  }

  ghost predicate Next(s: State, l: Label, t: State) {
    || (l == Quiet && exists i :: Begins(s, t, i) || Proceeds(s, t, i) || Aborts(s, t, i) || Elsewhere(s, t, i))
    || (l.Committed? && exists i :: Commits(s, t, i) && l == LabelOf(s.txs[i]))
  }

  function LabelOf(tx: Tx): Label {
    Committed(tx.key, Elems(tx.ids), Elems(tx.externals))
  }

  ghost predicate Init(s: State) {
    && Owned(s.db) && s.txs == map[]
    && Below(s.db.keys, s.nextKey) && Below(s.db.accounts, s.nextAccount) && Below(s.db.externals, s.nextExternal)
  }

  ghost predicate StepAt(run: seq<State>, labels: seq<Label>, i: nat)
    requires i < |labels| < |run|
  {
    Next(run[i], labels[i], run[i + 1])
  }

  ghost predicate IsRun(run: seq<State>, labels: seq<Label>) {
    && |run| == |labels| + 1 && Init(run[0])
    && forall i :: 0 <= i < |labels| ==> StepAt(run, labels, i)
  }

  // ---- what every step keeps -------------------------------------------------------------------

  /** The transaction has deleted, in its own view, every committed row of its key. */
  ghost predicate Cleared(binds: Binds, key: nat, gone: set<(nat, nat)>) {
    && (forall b :: b in binds && b.0 == key ==> b in gone)
    && (forall b :: b in gone ==> b.0 == key)
  }

  ghost predicate TxInv(db: Tables, nextKey: nat, tx: Tx) {
    && (!tx.stage.AtLeast(ClearedA) ==> tx.goneA == {})
    && (!tx.stage.AtLeast(ClearedE) || tx.job == Save ==> tx.goneE == {})
    && (tx.stage.AtLeast(FilledA) ==> AllOwned(db.accounts, tx.user, tx.ids))
    && (tx.stage.AtLeast(FilledE) ==> AllOwned(db.externals, tx.user, tx.externals))
    && match tx.job
       case Replace =>
         && (tx.stage.AtLeast(Locked) ==> tx.key in db.keys && db.keys[tx.key] == tx.user)
         && (tx.stage.AtLeast(ClearedA) ==> Cleared(db.accountBinds, tx.key, tx.goneA))
         && (tx.stage.AtLeast(ClearedE) ==> Cleared(db.externalBinds, tx.key, tx.goneE))
       case Save =>
         && tx.goneA == {}
         && (tx.stage != Begun ==>
               tx.stage.AtLeast(ClearedA) && tx.key !in db.keys && tx.key < nextKey && tx.user in db.users)
  }

  /** No two transactions past their first statement work on the same key. */
  ghost predicate Exclusive(txs: map<nat, Tx>) {
    forall i, j :: i in txs && j in txs && i != j && txs[i].stage != Begun && txs[j].stage != Begun ==>
      txs[i].key != txs[j].key
  }

  ghost predicate Inv(s: State) {
    && Owned(s.db)
    && Below(s.db.keys, s.nextKey) && Below(s.db.accounts, s.nextAccount) && Below(s.db.externals, s.nextExternal)
    && Exclusive(s.txs)
    && forall i :: i in s.txs ==> TxInv(s.db, s.nextKey, s.txs[i])
  }

  lemma ProceedsInv(s: State, t: State, i: nat)
    requires Inv(s) && Proceeds(s, t, i)
    ensures Inv(t)
  {
    var tx := s.txs[i];
    var n := t.txs[i];
    assert TxInv(s.db, s.nextKey, tx);
    ExecutesKeeps(s, tx, n);
    forall j | j in t.txs && j != i ensures TxInv(t.db, t.nextKey, t.txs[j]) {
      assert TxInv(s.db, s.nextKey, s.txs[j]);
    }
    if tx.stage == Begun {
      forall j | j in s.txs && j != i && s.txs[j].stage != Begun ensures s.txs[j].key != n.key {
        assert TxInv(s.db, s.nextKey, s.txs[j]);
        assert tx.job == Replace ==> !LocksKey(s.txs[j], tx.key);
      }
    }
  }

  lemma ExecutesKeeps(s: State, tx: Tx, n: Tx)
    requires Inv(s) && TxInv(s.db, s.nextKey, tx) && Executes(s, tx, n)
    ensures TxInv(s.db, if tx.job == Save && tx.stage == Begun then s.nextKey + 1 else s.nextKey, n)
    ensures tx.stage != Begun ==> n.key == tx.key
    ensures n.stage != Begun
  {
  }

  /** Publishing keeps ownership, and touches no row of another key. */
  lemma PublishedKeeps(s: State, i: nat)
    requires Inv(s) && i in s.txs && ReadyToCommit(s.txs[i])
    ensures Owned(Published(s.db, s.txs[i]))
    ensures var tx := s.txs[i];
            var db := Published(s.db, tx);
            && tx.key < s.nextKey
            && Targets(db.accountBinds, tx.key) == Elems(tx.ids)
            && Targets(db.externalBinds, tx.key) == Elems(tx.externals)
            && (forall b: (nat, nat) :: b.0 != tx.key ==> (b in db.accountBinds <==> b in s.db.accountBinds))
            && (forall b: (nat, nat) :: b.0 != tx.key ==> (b in db.externalBinds <==> b in s.db.externalBinds))
  {
    var tx := s.txs[i];
    assert TxInv(s.db, s.nextKey, tx);
    PublishedRows(s.db.keys, s.db.accounts, s.db.accountBinds, tx.goneA, tx.key, tx.user, tx.ids);
    PublishedRows(s.db.keys, s.db.externals, s.db.externalBinds, tx.goneE, tx.key, tx.user, tx.externals);
  }

  lemma PublishedRows(keys: Owners, owners: Owners, binds: Binds, gone: set<(nat, nat)>,
                      key: nat, user: nat, ids: seq<nat>)
    requires BindsOwned(keys, owners, binds) && AllOwned(owners, user, ids)
    requires key in keys ==> keys[key] == user && Cleared(binds, key, gone)
    requires key !in keys ==> gone == {}
    ensures var after := binds - gone + NewRows(key, user, ids);
            && BindsOwned(keys[key := user], owners, after)
            && Targets(after, key) == Elems(ids)
            && (forall b: (nat, nat) :: b.0 != key ==> (b in after <==> b in binds))
  {
    var after := binds - gone + NewRows(key, user, ids);
    forall b: (nat, nat) ensures b in after <==> (b.0 == key && b.1 in ids) || (b.0 != key && b in binds) {
      assert b.1 in ids ==> (key, b.1) in NewRows(key, user, ids);
      assert b == (b.0, b.1);
    }
  }

  /** A transaction stands as before when neither its rows nor the owners it refers to change. */
  lemma TxBeside(db: Tables, after: Tables, nextKey: nat, tx: Tx)
    requires TxInv(db, nextKey, tx)
    requires after.users == db.users && after.accounts == db.accounts && after.externals == db.externals
    requires tx.stage != Begun ==>
               && (tx.key in after.keys <==> tx.key in db.keys)
               && (tx.key in db.keys ==> after.keys[tx.key] == db.keys[tx.key])
               && (forall b: (nat, nat) :: b.0 == tx.key ==> (b in after.accountBinds <==> b in db.accountBinds))
               && (forall b: (nat, nat) :: b.0 == tx.key ==> (b in after.externalBinds <==> b in db.externalBinds))
    ensures TxInv(after, nextKey, tx)
  {
  }

  lemma CommitKeepsTx(s: State, i: nat, j: nat)
    requires Inv(s) && i in s.txs && ReadyToCommit(s.txs[i]) && j in s.txs && j != i
    ensures TxInv(Published(s.db, s.txs[i]), s.nextKey, s.txs[j])
  {
    PublishedKeeps(s, i);
    assert s.txs[j].stage != Begun ==> s.txs[j].key != s.txs[i].key;
    TxBeside(s.db, Published(s.db, s.txs[i]), s.nextKey, s.txs[j]);
  }

  lemma CommitsInv(s: State, t: State, i: nat)
    requires Inv(s) && Commits(s, t, i)
    ensures Inv(t)
  {
    PublishedKeeps(s, i);
    forall j | j in t.txs ensures TxInv(t.db, t.nextKey, t.txs[j]) {
      CommitKeepsTx(s, i, j);
    }
  }

  lemma ChangeKeepsTx(s: State, c: Change, x: nat, j: nat)
    requires Inv(s) && Allowed(s, c, x) && j in s.txs
    ensures TxInv(Changed(s, c, x).db, s.nextKey, s.txs[j])
  {
    assert TxInv(s.db, s.nextKey, s.txs[j]);
    match c
    case NewUser =>
    case NewAccount =>
    case NewExternal =>
    case LoseAccount =>
    case LoseExternal =>
    case LoseKey =>
    case LoseUser =>
  }

  lemma ChangeKeepsDb(s: State, c: Change, x: nat)
    requires Inv(s) && Allowed(s, c, x)
    ensures var t := Changed(s, c, x);
            && Owned(t.db) && t.txs == s.txs && t.nextKey == s.nextKey
            && Below(t.db.keys, t.nextKey) && Below(t.db.accounts, t.nextAccount)
            && Below(t.db.externals, t.nextExternal)
  {
    match c
    case NewUser =>
    case NewAccount =>
    case NewExternal =>
    case LoseAccount => CascadesKeepOwnership(s.db, x);
    case LoseExternal => CascadesKeepOwnership(s.db, x);
    case LoseKey => CascadesKeepOwnership(s.db, x);
    case LoseUser => CascadesKeepOwnership(s.db, x);
  }

  lemma ElsewhereInv(s: State, t: State, x: nat)
    requires Inv(s) && Elsewhere(s, t, x)
    ensures Inv(t)
  {
    var c :| Allowed(s, c, x) && t == Changed(s, c, x);
    ChangeKeepsDb(s, c, x);
    forall j | j in t.txs ensures TxInv(t.db, t.nextKey, t.txs[j]) {
      ChangeKeepsTx(s, c, x, j);
    }
  }

  lemma BeginsInv(s: State, t: State, i: nat)
    requires Inv(s) && Begins(s, t, i)
    ensures Inv(t)
  {
  }

  lemma AbortsInv(s: State, t: State, i: nat)
    requires Inv(s) && Aborts(s, t, i)
    ensures Inv(t)
  {
  }

  lemma NextInv(s: State, l: Label, t: State)
    requires Inv(s) && Next(s, l, t)
    ensures Inv(t)
  {
    if l.Committed? {
      var i :| Commits(s, t, i) && l == LabelOf(s.txs[i]);
      CommitsInv(s, t, i);
    } else {
      var i :| Begins(s, t, i) || Proceeds(s, t, i) || Aborts(s, t, i) || Elsewhere(s, t, i);
      if Begins(s, t, i) {
        BeginsInv(s, t, i);
      } else if Proceeds(s, t, i) {
        ProceedsInv(s, t, i);
      } else if Aborts(s, t, i) {
        AbortsInv(s, t, i);
      } else {
        ElsewhereInv(s, t, i);
      }
    }
  }

  // ---- the scope of a key over a whole run -----------------------------------------------------

  /** Both argument sets of the last replacement or creation committed for the key, or what it was bound
      to at the start. */
  function Scope(start: Tables, labels: seq<Label>, k: nat): (set<nat>, set<nat>) {
    if labels == [] then (Targets(start.accountBinds, k), Targets(start.externalBinds, k))
    else
      var l := labels[|labels| - 1];
      if l.Committed? && l.key == k then (l.accounts, l.externals) else Scope(start, labels[..|labels| - 1], k)
  }

  /** The key is bound to exactly the surviving part of `scope`; ids are never given out twice. */
  ghost predicate Bound(binds: Binds, owners: Owners, next: nat, k: nat, scope: set<nat>) {
    Targets(binds, k) == scope * owners.Keys && forall a :: a in scope ==> a < next
  }

  ghost predicate BoundTo(s: State, k: nat, scope: (set<nat>, set<nat>)) {
    && Bound(s.db.accountBinds, s.db.accounts, s.nextAccount, k, scope.0)
    && Bound(s.db.externalBinds, s.db.externals, s.nextExternal, k, scope.1)
  }

  lemma BoundAfter(keys: Owners, owners: Owners, binds: Binds, next: nat, x: nat, k: nat, scope: set<nat>)
    requires BindsOwned(keys, owners, binds) && k in keys && Bound(binds, owners, next, k, scope)
    ensures Bound(binds, owners[next := x], next + 1, k, scope)
    ensures Bound(WithoutTarget(binds, x), owners - {x}, next, k, scope)
    ensures k != x ==> Bound(WithoutKey(binds, x), owners, next, k, scope)
    ensures keys[k] != x ==> Bound(WithoutUser(binds, x), Disown(owners, x), next, k, scope)
  {
    WithoutKeepsRest(keys, owners, binds, x, k);
    assert scope * owners[next := x].Keys == scope * owners.Keys;
    if keys[k] != x {
      SurvivorsStay(keys, owners, binds, x, k, scope);
    }
  }

  lemma ChangeKeepsScope(s: State, c: Change, x: nat, k: nat, scope: (set<nat>, set<nat>))
    requires Inv(s) && k in Changed(s, c, x).db.keys && k in s.db.keys && BoundTo(s, k, scope)
    ensures BoundTo(Changed(s, c, x), k, scope)
  {
    BoundAfter(s.db.keys, s.db.accounts, s.db.accountBinds, s.nextAccount, x, k, scope.0);
    BoundAfter(s.db.keys, s.db.externals, s.db.externalBinds, s.nextExternal, x, k, scope.1);
  }

  lemma SurvivorsStay(keys: Owners, owners: Owners, binds: Binds, u: nat, k: nat, scope: set<nat>)
    requires BindsOwned(keys, owners, binds) && k in keys && keys[k] != u
    requires Targets(binds, k) == scope * owners.Keys
    ensures Targets(binds, k) == scope * Disown(owners, u).Keys
  {
    forall x | x in scope * owners.Keys ensures x in Disown(owners, u) {
      assert (k, x) in binds;
    }
  }

  lemma CommitKeepsScope(s: State, t: State, i: nat, k: nat, scope: (set<nat>, set<nat>))
    requires Inv(s) && Commits(s, t, i) && k in t.db.keys
    requires k in s.db.keys ==> BoundTo(s, k, scope)
    ensures BoundTo(t, k, if s.txs[i].key == k then (Elems(s.txs[i].ids), Elems(s.txs[i].externals)) else scope)
  {
    PublishedKeeps(s, i);
    var tx := s.txs[i];
    if k == tx.key {
      assert TxInv(s.db, s.nextKey, tx);
      BoundToAll(t.db.accountBinds, t.db.accounts, t.nextAccount, k, tx.user, tx.ids);
      BoundToAll(t.db.externalBinds, t.db.externals, t.nextExternal, k, tx.user, tx.externals);
    } else {
      SameRows(s.db.accountBinds, t.db.accountBinds, k);
      SameRows(s.db.externalBinds, t.db.externalBinds, k);
    }
  }

  lemma BoundToAll(binds: Binds, owners: Owners, next: nat, k: nat, user: nat, ids: seq<nat>)
    requires Targets(binds, k) == Elems(ids) && AllOwned(owners, user, ids) && Below(owners, next)
    ensures Bound(binds, owners, next, k, Elems(ids))
  {
    assert Elems(ids) * owners.Keys == Elems(ids);
  }

  lemma SameRows(before: Binds, after: Binds, k: nat)
    requires forall b: (nat, nat) :: b.0 == k ==> (b in after <==> b in before)
    ensures Targets(after, k) == Targets(before, k)
  {
    assert forall x: nat :: (k, x).0 == k ==> ((k, x) in after <==> (k, x) in before);
  }

  lemma KeysOnlyGo(s: State, c: Change, x: nat, k: nat)
    requires k in Changed(s, c, x).db.keys
    ensures k in s.db.keys
  {
  }

  /** Short of its commit, a transaction changes nothing that others can see. */
  lemma OwnSteps(s: State, t: State, i: nat)
    requires Begins(s, t, i) || Proceeds(s, t, i) || Aborts(s, t, i)
    ensures t.db == s.db && t.nextAccount == s.nextAccount && t.nextExternal == s.nextExternal
  {
  }

  lemma NextKeepsScope(s: State, l: Label, t: State, k: nat, scope: (set<nat>, set<nat>))
    requires Inv(s) && Next(s, l, t)
    requires k in s.db.keys ==> BoundTo(s, k, scope)
    ensures k in t.db.keys ==> BoundTo(t, k, if l.Committed? && l.key == k then (l.accounts, l.externals) else scope)
  {
    if k !in t.db.keys {
    } else if l.Committed? {
      var i :| Commits(s, t, i) && l == LabelOf(s.txs[i]);
      CommitKeepsScope(s, t, i, k, scope);
    } else {
      var i :| Begins(s, t, i) || Proceeds(s, t, i) || Aborts(s, t, i) || Elsewhere(s, t, i);
      if Elsewhere(s, t, i) {
        var c :| Allowed(s, c, i) && t == Changed(s, c, i);
        KeysOnlyGo(s, c, i, k);
        ChangeKeepsScope(s, c, i, k, scope);
      } else {
        OwnSteps(s, t, i);
      }
    }
  }

  /** In every reachable state every key is bound to the surviving part of both argument sets of the last
      transaction committed for it: never a mixture of two, and nothing of one that failed. */
  lemma {:induction false} ScopeIsLastCommitted(run: seq<State>, labels: seq<Label>, n: nat, k: nat)
    requires IsRun(run, labels) && n <= |labels|
    ensures Inv(run[n])
    ensures k in run[n].db.keys ==> BoundTo(run[n], k, Scope(run[0].db, labels[..n], k))
  {
    if n == 0 {
      var s := run[0];
      assert forall x :: x in Targets(s.db.accountBinds, k) ==>
        (k, x) in s.db.accountBinds && (k, x).1 in s.db.accounts;
      assert forall x :: x in Targets(s.db.externalBinds, k) ==>
        (k, x) in s.db.externalBinds && (k, x).1 in s.db.externals;
    } else {
      ScopeIsLastCommitted(run, labels, n - 1, k);
      assert StepAt(run, labels, n - 1);
      NextInv(run[n - 1], labels[n - 1], run[n]);
      ScopeSnoc(run[0].db, labels, n, k);
      NextKeepsScope(run[n - 1], labels[n - 1], run[n], k, Scope(run[0].db, labels[..n - 1], k));
    }
  }

  lemma ScopeSnoc(start: Tables, labels: seq<Label>, n: nat, k: nat)
    requires 0 < n <= |labels|
    ensures var l := labels[n - 1];
            Scope(start, labels[..n], k) ==
            if l.Committed? && l.key == k then (l.accounts, l.externals) else Scope(start, labels[..n - 1], k)
  {
    assert labels[..n][..n - 1] == labels[..n - 1];
  }

  lemma BoundExact(binds: Binds, owners: Owners, next: nat, k: nat, scope: set<nat>)
    requires Bound(binds, owners, next, k, scope)
    ensures scope <= owners.Keys <==> Targets(binds, k) == scope
  {
  }

  lemma JustCommitted(run: seq<State>, labels: seq<Label>, n: nat, k: nat)
    requires IsRun(run, labels) && 0 < n <= |labels| && labels[n - 1].Committed? && labels[n - 1].key == k
    ensures var s := run[n];
            && Targets(s.db.accountBinds, k) == labels[n - 1].accounts
            && Targets(s.db.externalBinds, k) == labels[n - 1].externals
  {
    ScopeIsLastCommitted(run, labels, n - 1, k);
    assert StepAt(run, labels, n - 1);
    var i :| Commits(run[n - 1], run[n], i) && labels[n - 1] == LabelOf(run[n - 1].txs[i]);
    PublishedKeeps(run[n - 1], i);
  }

  /** When none of its targets has been deleted, a key is bound to exactly the last committed scope; and a
      commit always binds it to exactly what was asked for. */
  lemma ScopeExact(run: seq<State>, labels: seq<Label>, n: nat, k: nat)
    requires IsRun(run, labels) && n <= |labels| && k in run[n].db.keys
    ensures var s := run[n];
            var scope := Scope(run[0].db, labels[..n], k);
            && (scope.0 <= s.db.accounts.Keys <==> Targets(s.db.accountBinds, k) == scope.0)
            && (scope.1 <= s.db.externals.Keys <==> Targets(s.db.externalBinds, k) == scope.1)
            && (n > 0 && labels[n - 1].Committed? && labels[n - 1].key == k ==>
                  Targets(s.db.accountBinds, k) == scope.0 && Targets(s.db.externalBinds, k) == scope.1)
  {
    ScopeIsLastCommitted(run, labels, n, k);
    var s, scope := run[n], Scope(run[0].db, labels[..n], k);
    BoundExact(s.db.accountBinds, s.db.accounts, s.nextAccount, k, scope.0);
    BoundExact(s.db.externalBinds, s.db.externals, s.nextExternal, k, scope.1);
    if n > 0 && labels[n - 1].Committed? && labels[n - 1].key == k {
      ScopeSnoc(run[0].db, labels, n, k);
      JustCommitted(run, labels, n, k);
    }
  }

  /** A binding's user owns its key and its target in every reachable state, although creations check
      ownership before and outside the transaction that writes. */
  lemma OwnershipAlways(run: seq<State>, labels: seq<Label>, n: nat, b: (nat, nat))
    requires IsRun(run, labels) && n <= |labels|
    ensures var db := run[n].db;
            && (b in db.accountBinds ==>
                  b.0 in db.keys && b.1 in db.accounts && db.keys[b.0] == db.accountBinds[b] == db.accounts[b.1])
            && (b in db.externalBinds ==>
                  b.0 in db.keys && b.1 in db.externals && db.keys[b.0] == db.externalBinds[b] == db.externals[b.1])
  {
    ScopeIsLastCommitted(run, labels, n, b.0);
  }
}
