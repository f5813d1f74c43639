/** The two models of the binding tables agree: `ApikeyStore` runs a transaction alone, `ScopeRuns` runs any
    number of them at once.
 */
module ScopeAgreement {
  import opened ScopeTables
  import ScopeRuns
  import ApikeyStore

  lemma PublishedIsRebound(s: ScopeRuns.State, i: nat)
    requires ScopeRuns.Inv(s) && i in s.txs && ScopeRuns.ReadyToCommit(s.txs[i])
    ensures var tx := s.txs[i];
            var after := ScopeRuns.Published(s.db, tx);
            Owned(after) && ApikeyStore.Rebound(s.db, after, tx.key, tx.user, tx.ids, tx.externals)
  {
    ScopeRuns.PublishedKeeps(s, i);
    var tx := s.txs[i];
    var after := ScopeRuns.Published(s.db, tx);
    assert ScopeRuns.TxInv(s.db, s.nextKey, tx);
    KeptRows(s.db.keys, after.keys, s.db.accounts, s.db.accountBinds, after.accountBinds, tx.key);
    KeptRows(s.db.keys, after.keys, s.db.externals, s.db.externalBinds, after.externalBinds, tx.key);
  }

  /** What a transaction publishes among others is what the repository methods promise to make of the same
      tables, `t`, when they run alone. */
  lemma PublishedIsOutcome(s: ScopeRuns.State, i: nat, t: Tables)
    requires ScopeRuns.Inv(s) && i in s.txs && ScopeRuns.ReadyToCommit(s.txs[i])
    requires Owned(t) && t.keys == s.db.keys[s.txs[i].key := s.txs[i].user]
    requires ApikeyStore.Rebound(s.db, t, s.txs[i].key, s.txs[i].user, s.txs[i].ids, s.txs[i].externals)
    ensures t == ScopeRuns.Published(s.db, s.txs[i])
  {
    var tx := s.txs[i];
    PublishedIsRebound(s, i);
    ApikeyStore.ReboundIsExact(s.db, t, ScopeRuns.Published(s.db, tx), tx.key, tx.user, tx.ids, tx.externals);
  }

  lemma KeptRows(keys: Owners, keysAfter: Owners, owners: Owners, before: Binds, after: Binds, key: nat)
    requires BindsOwned(keys, owners, before) && BindsOwned(keysAfter, owners, after)
    requires forall b: (nat, nat) :: b.0 != key ==> (b in after <==> b in before)
    ensures ApikeyStore.OtherRowsSame(before, after, key)
  {
  }
}
