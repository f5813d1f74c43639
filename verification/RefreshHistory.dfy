/** What a credential row holds after any history of logins, refreshes and deletions, told from what the
    provider handed out.
 */
module RefreshHistory {
  import opened Wrappers
  import opened CredentialStore
  import opened RefreshRuns

  /** What was handed out last for a row and kept, and when. */
  function LastHanded(labels: seq<Label>, id: nat): Option<(Token, int)> {
    if labels == [] then None
    else
      var l := labels[|labels| - 1];
      if (l.LoggedIn? || l.Committed?) && l.id == id then Some((l.handed, l.now))
      else if l == Deleted(id) then None
      else LastHanded(labels[..|labels| - 1], id)
  }

  /** The ID token kept for a row: a refresh that brings none leaves the earlier one. */
  function LastIdToken(labels: seq<Label>, id: nat): Option<string> {
    if labels == [] then None
    else
      var l := labels[|labels| - 1];
      if l.LoggedIn? && l.id == id then Some(l.handed.idToken)
      else if l.Committed? && l.id == id && l.handed.idToken != "" then Some(l.handed.idToken)
      else if l == Deleted(id) then None
      else LastIdToken(labels[..|labels| - 1], id)
  }

  /** The login that made a row: its user, and the ID token it was handed. */
  function Opened(labels: seq<Label>, id: nat): Option<(nat, string)> {
    if labels == [] then None
    else
      var l := labels[|labels| - 1];
      if l.LoggedIn? && l.id == id then Some((l.user, l.handed.idToken))
      else if l == Deleted(id) then None
      else Opened(labels[..|labels| - 1], id)
  }

  /** The secrets and times of a row are those of the tokens handed out for it. */
  predicate HoldsTokens(lib: Library, r: Row, labels: seq<Label>, id: nat) {
    && LastHanded(labels, id).Some?
    && var (token, now) := LastHanded(labels, id).value;
       && lib.decrypt(r.access) == Some(token.access)
       && r.expired == token.expiry && r.lastRefresh == Some(now)
       && lib.decrypt(r.refresh) == LastStored(labels, id)
       && lib.decrypt(r.idToken) == LastIdToken(labels, id)
  }

  /** Whose row it is was settled by the login that made it. */
  predicate HoldsOwner(lib: Library, r: Row, labels: seq<Label>, id: nat) {
    && Opened(labels, id).Some?
    && var (user, idToken) := Opened(labels, id).value;
       && r.user == user && r.typ == "codex"
       && lib.verify(idToken).Some?
       && r.account == lib.verify(idToken).value.account && r.email == lib.verify(idToken).value.email
  }

  predicate Holds(lib: Library, r: Row, labels: seq<Label>, id: nat) {
    HoldsTokens(lib, r, labels, id) && HoldsOwner(lib, r, labels, id)
  }

  lemma Unmoved(labels: seq<Label>, l: Label, id: nat)
    requires l.LoggedIn? || l.Committed? || l.Deleted? ==> l.id != id
    ensures LastHanded(labels + [l], id) == LastHanded(labels, id)
    ensures LastIdToken(labels + [l], id) == LastIdToken(labels, id)
    ensures Opened(labels + [l], id) == Opened(labels, id)
    ensures LastStored(labels + [l], id) == LastStored(labels, id)
  {
    assert (labels + [l])[..|labels|] == labels;
  }

  lemma LoginHolds(lib: Library, labels: seq<Label>, l: Label, flow: Flow, browser: bool, nonce: nat)
    requires Lawful(lib) && l.LoggedIn? && flow.user == l.user && Saveable(lib, l.handed, flow, browser, l.now)
    ensures Holds(lib, SavedRow(lib, l.handed, flow, l.now, nonce), labels + [l], l.id)
  {
    SavedKeepsIdentity(lib, l.handed, flow, browser, l.now, nonce);
    assert (labels + [l])[..|labels|] == labels;
  }

  lemma CommitHolds(lib: Library, s: State, labels: seq<Label>, l: Label, t: State, i: nat)
    requires Inv(lib, s) && Commits(s, t, i) && l.Committed? && l.id == s.txs[i].id
    requires l.handed == s.txs[i].stage.token && l.now == s.txs[i].stage.now
    requires l.id in s.rows && Holds(lib, s.rows[l.id], labels, l.id)
    ensures l.id in t.rows && Holds(lib, t.rows[l.id], labels + [l], l.id)
  {
    assert TxInv(lib, s, s.txs[i]);
    assert (labels + [l])[..|labels|] == labels;
  }

  ghost predicate RowsHold(lib: Library, s: State, labels: seq<Label>, id: nat) {
    id in s.rows ==> Holds(lib, s.rows[id], labels, id)
  }

  lemma ElsewhereHolds(lib: Library, s: State, labels: seq<Label>, l: Label, t: State, id: nat)
    requires RowsHold(lib, s, labels, id)
    requires l.LoggedIn? || l.Committed? || l.Deleted? ==> l.id != id
    requires id in t.rows ==> id in s.rows && t.rows[id] == s.rows[id]
    ensures RowsHold(lib, t, labels + [l], id)
  {
    Unmoved(labels, l, id);
  }

  lemma LoginStepHolds(lib: Library, s: State, labels: seq<Label>, l: Label, t: State, id: nat,
                       flow: Flow, browser: bool, nonce: nat)
    requires Lawful(lib) && l.LoggedIn? && l.id == s.nextId && flow.user == l.user && RowsHold(lib, s, labels, id)
    requires LogsInWith(lib, s, t, l.handed, flow, browser, l.now, nonce)
    ensures RowsHold(lib, t, labels + [l], id)
  {
    if id == l.id {
      LoginHolds(lib, labels, l, flow, browser, nonce);
    } else {
      ElsewhereHolds(lib, s, labels, l, t, id);
    }
  }

  lemma CommitStepHolds(lib: Library, s: State, labels: seq<Label>, l: Label, t: State, id: nat, i: nat)
    requires Inv(lib, s) && Commits(s, t, i) && l.Committed? && l.id == s.txs[i].id
    requires l.handed == s.txs[i].stage.token && l.now == s.txs[i].stage.now && RowsHold(lib, s, labels, id)
    ensures RowsHold(lib, t, labels + [l], id)
  {
    if id == l.id {
      CommitHolds(lib, s, labels, l, t, i);
    } else {
      ElsewhereHolds(lib, s, labels, l, t, id);
    }
  }

  lemma NextHolds(lib: Library, s: State, labels: seq<Label>, l: Label, t: State, id: nat)
    requires Lawful(lib) && Inv(lib, s) && Next(lib, s, l, t) && RowsHold(lib, s, labels, id)
    ensures RowsHold(lib, t, labels + [l], id)
  {
    match l
    case Quiet => ElsewhereHolds(lib, s, labels, l, t, id);
    case Presented(_, _, _) => ElsewhereHolds(lib, s, labels, l, t, id);
    case LoggedIn(x, user, token, now) =>
      var flow: Flow, browser, nonce :| flow.user == user && LogsInWith(lib, s, t, token, flow, browser, now, nonce);
      LoginStepHolds(lib, s, labels, l, t, id, flow, browser, nonce);
    case Committed(x, token, now) =>
      var i :| Commits(s, t, i) && s.txs[i].id == x && s.txs[i].stage.token == token && s.txs[i].stage.now == now;
      CommitStepHolds(lib, s, labels, l, t, id, i);
    case Deleted(x) =>
      if id != x {
        ElsewhereHolds(lib, s, labels, l, t, id);
      }
  }

  lemma {:induction false} RunHolds(lib: Library, run: seq<State>, labels: seq<Label>, n: nat, id: nat)
    requires Lawful(lib) && IsRun(lib, run, labels) && n <= |labels|
    ensures RowsHold(lib, run[n], labels[..n], id)
  {
    if n > 0 {
      RunHolds(lib, run, labels, n - 1, id);
      RunMatches(lib, run, labels, n - 1, id);
      assert StepAt(lib, run, labels, n - 1);
      NextHolds(lib, run[n - 1], labels[..n - 1], labels[n - 1], run[n], id);
      assert labels[..n - 1] + [labels[n - 1]] == labels[..n];
    }
  }

  /** In every reachable state the access token of a row decrypts to that of the last login or committed
      refresh of the row, and the row has its expiry and time; refresh and ID token are the last ones handed
      out that were not omitted; and owner, account and e-mail address are those of the login. */
  lemma RowsHoldWhatWasHanded(lib: Library, run: seq<State>, labels: seq<Label>, n: nat, id: nat)
    requires Lawful(lib) && IsRun(lib, run, labels) && n <= |labels| && id in run[n].rows
    ensures var r := run[n].rows[id];
            var last, login := LastHanded(labels[..n], id), Opened(labels[..n], id);
            && last.Some? && login.Some? && lib.verify(login.value.1).Some?
            && lib.decrypt(r.access) == Some(last.value.0.access)
            && r.expired == last.value.0.expiry && r.lastRefresh == Some(last.value.1)
            && lib.decrypt(r.refresh) == LastStored(labels[..n], id)
            && lib.decrypt(r.idToken) == LastIdToken(labels[..n], id)
            && r.user == login.value.0 && r.typ == "codex"
            && r.account == lib.verify(login.value.1).value.account
            && r.email == lib.verify(login.value.1).value.email
  {
    RunHolds(lib, run, labels, n, id);
  }
}
