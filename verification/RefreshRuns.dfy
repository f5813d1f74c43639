/** Concurrent refreshes, logins and deletions of stored credentials, against a provider that rotates
    refresh tokens: it accepts each at most once and answers with a fresh one.

    A refresh locks its row, presents the stored token, and commits the answer; it may fail anywhere in
    between. The row lock is held across the provider call.
 */
module RefreshRuns {
  import opened Wrappers
  import opened CredentialStore

  datatype Stage =
    | Begun
    | Holding(model: Row)                  // row locked and read
    | Answered(model: Row, token: Token)   // provider has replied
    | Ready(model: Row, token: Token, now: int)     // new credentials encrypted

  datatype Tx = Tx(owner: nat, id: nat, stage: Stage)

  datatype State = State(
    rows: map<nat, Row>,
    txs: map<nat, Tx>,
    issued: set<string>,                   // refresh tokens the provider has ever handed out
    consumed: set<string>,                 // those it no longer accepts
    nextId: nat)

  /** What a step shows from outside. */
  datatype Label =
    | Quiet
    | Presented(id: nat, token: string, rotated: bool)   // a token reached the provider
    | LoggedIn(id: nat, user: nat, handed: Token, now: int)  // a login stored what it was handed
    | Committed(id: nat, handed: Token, now: int)            // a refresh committed what it was handed
    | Deleted(id: nat)

  predicate HoldsLock(tx: Tx, id: nat) {
    tx.id == id && !tx.stage.Begun?
  }

  ghost predicate Begins(s: State, t: State, i: nat) {
    i !in s.txs && i in t.txs && t.txs[i].stage == Begun && t == s.(txs := s.txs[i := t.txs[i]])
  }

  ghost predicate Locks(s: State, t: State, i: nat) {
    && i in s.txs && s.txs[i].stage == Begun
    && var tx := s.txs[i];
       && tx.id in s.rows && s.rows[tx.id].user == tx.owner
       && (forall j :: j in s.txs ==> !HoldsLock(s.txs[j], tx.id))
       && t == s.(txs := s.txs[i := tx.(stage := Holding(s.rows[tx.id]))])
  }

  /** The provider takes the token and answers; an answer with a refresh token rotates. */
  ghost predicate Answers(lib: Library, s: State, t: State, i: nat, token: string, rotated: bool) {
    && i in s.txs && i in t.txs && s.txs[i].stage.Holding? && t.txs[i].stage.Answered?
    && Presents(lib, s.txs[i].stage.model) == Some(token) && token !in s.consumed
    && var tx := s.txs[i];
       var answer := t.txs[i].stage.token;
       && rotated == (answer.refresh != "")
       && (rotated ==> answer.refresh !in s.issued)
       && t == s.(txs := s.txs[i := tx.(stage := Answered(tx.stage.model, answer))],
                  issued := if rotated then s.issued + {answer.refresh} else s.issued,
                  consumed := if rotated then s.consumed + {token} else s.consumed)
  }

  /** The call fails: the provider refuses the token, or its answer is lost on the way back. */
  ghost predicate CallFails(lib: Library, s: State, t: State, i: nat, token: string, rotated: bool) {
    && i in s.txs && s.txs[i].stage.Holding? && Presents(lib, s.txs[i].stage.model) == Some(token)
    && (rotated ==> token !in s.consumed)
    && t == s.(txs := s.txs - {i}, consumed := if rotated then s.consumed + {token} else s.consumed)
  }

  ghost predicate Encrypts(lib: Library, s: State, t: State, i: nat) {
    && i in s.txs && s.txs[i].stage.Answered?
    && exists now, nonce ::
         && Acceptable(lib, s.txs[i].stage.model, s.txs[i].stage.token, now)
         && t == s.(txs := s.txs[i := s.txs[i].(stage :=
                      Ready(Refreshed(lib, s.txs[i].stage.model, s.txs[i].stage.token, now, nonce),
                            s.txs[i].stage.token, now))])
  }

  /** `UPDATE` of the credential columns, and the commit. */
  function Updated(r: Row, model: Row): Row {
    r.(access := model.access, refresh := model.refresh, idToken := model.idToken,
       expired := model.expired, lastRefresh := model.lastRefresh)
  }

  ghost predicate Commits(s: State, t: State, i: nat) {
    && i in s.txs && s.txs[i].stage.Ready?
    && var tx := s.txs[i];
       && tx.id in s.rows && s.rows[tx.id].user == tx.owner
       && t == s.(rows := s.rows[tx.id := Updated(s.rows[tx.id], tx.stage.model)], txs := s.txs - {i})
  }

  ghost predicate Aborts(s: State, t: State, i: nat) {
    i in s.txs && t == s.(txs := s.txs - {i})
  }

  /** A finished login inserts the row of the token it was given; a refresh token in it is fresh. */
  ghost predicate LogsInWith(lib: Library, s: State, t: State,
                             token: Token, flow: Flow, browser: bool, now: int, nonce: nat)
  {
    && Saveable(lib, token, flow, browser, now)
    && (token.refresh != "" ==> token.refresh !in s.issued)
    && t == s.(rows := s.rows[s.nextId := SavedRow(lib, token, flow, now, nonce)], nextId := s.nextId + 1,
               issued := if token.refresh != "" then s.issued + {token.refresh} else s.issued)
  }

  ghost predicate Deletes(s: State, t: State, id: nat) {
    id in s.rows && (forall j :: j in s.txs ==> !HoldsLock(s.txs[j], id)) && t == s.(rows := s.rows - {id})
  }

  ghost predicate Next(lib: Library, s: State, l: Label, t: State) {
    match l
    case Quiet => exists i :: Begins(s, t, i) || Locks(s, t, i) || Encrypts(lib, s, t, i) || Aborts(s, t, i)
    case Presented(id, token, rotated) =>
      exists i :: i in s.txs && s.txs[i].id == id &&
        (Answers(lib, s, t, i, token, rotated) || CallFails(lib, s, t, i, token, rotated))
    case LoggedIn(id, user, token, now) =>
      id == s.nextId && exists flow: Flow, browser, nonce ::
        flow.user == user && LogsInWith(lib, s, t, token, flow, browser, now, nonce)
    case Committed(id, token, now) =>
      exists i :: Commits(s, t, i) && s.txs[i].id == id && s.txs[i].stage.token == token && s.txs[i].stage.now == now
    case Deleted(id) => Deletes(s, t, id)
  }

  ghost predicate Init(s: State) {
    s == State(map[], map[], {}, {}, 1)
  }

  ghost predicate StepAt(lib: Library, run: seq<State>, labels: seq<Label>, i: nat)
    requires i < |labels| < |run|
  {
    Next(lib, run[i], labels[i], run[i + 1])
  }

  ghost predicate IsRun(lib: Library, run: seq<State>, labels: seq<Label>) {
    && |run| == |labels| + 1 && Init(run[0])
    && forall i :: 0 <= i < |labels| ==> StepAt(lib, run, labels, i)
  }

  // ---- what a run has shown --------------------------------------------------------------------

  /** The refresh token most recently committed for a row. */
  function LastStored(labels: seq<Label>, id: nat): Option<string> {
    if labels == [] then None
    else
      var l := labels[|labels| - 1];
      if l.LoggedIn? && l.id == id then Some(l.handed.refresh)
      else if l.Committed? && l.id == id && l.handed.refresh != "" then Some(l.handed.refresh)
      else if l == Deleted(id) then None
      else LastStored(labels[..|labels| - 1], id)
  }

  /** The last rotation for a row was never committed. */
  function RotationLost(labels: seq<Label>, id: nat): bool {
    if labels == [] then false
    else
      var l := labels[|labels| - 1];
      if l.Presented? && l.id == id && l.rotated then true
      else if (l.LoggedIn? || l.Committed?) && l.id == id then false
      else RotationLost(labels[..|labels| - 1], id)
  }

  // ---- what every step keeps -------------------------------------------------------------------

  function Plain(lib: Library, r: Row): Option<string> {
    lib.decrypt(r.refresh)
  }

  predicate Live(o: Option<string>) {
    o.Some? && o.value != ""
  }

  /** No row holds the token. */
  ghost predicate Unused(lib: Library, rows: map<nat, Row>, token: string) {
    forall id :: id in rows ==> Plain(lib, rows[id]) != Some(token)
  }

  /** The provider's answer for a row: a fresh token that nobody else has, or none, and then the row's own
      token is still good. */
  ghost predicate AnswerInv(lib: Library, s: State, row: Row, t: Token) {
    && (t.refresh != "" ==> t.refresh in s.issued && t.refresh !in s.consumed && Unused(lib, s.rows, t.refresh))
    && (t.refresh == "" && Live(Plain(lib, row)) ==> Plain(lib, row).value !in s.consumed)
  }

  ghost predicate TxInv(lib: Library, s: State, tx: Tx) {
    tx.stage.Begun? ||
    (tx.id in s.rows &&
     var row := s.rows[tx.id];
     row.user == tx.owner &&
     match tx.stage
     case Begun => true
     case Holding(m) => m == row
     case Answered(m, t) => m == row && AnswerInv(lib, s, row, t)
     case Ready(m, t, now) =>
       && SameOwnerAndAccount(m, row) && IdentityKept(lib, m)
       && Plain(lib, m) == (if t.refresh == "" then Plain(lib, row) else Some(t.refresh))
       && lib.decrypt(m.idToken) == (if t.idToken == "" then lib.decrypt(row.idToken) else Some(t.idToken))
       && lib.decrypt(m.access) == Some(t.access) && m.expired == t.expiry && m.lastRefresh == Some(now)
       && AnswerInv(lib, s, row, t))
  }

  /** The fresh token a transaction has been given and not yet stored. */
  function Pending(tx: Tx): string {
    if tx.stage.Answered? || tx.stage.Ready? then tx.stage.token.refresh else ""
  }

  ghost predicate Exclusive(txs: map<nat, Tx>) {
    && (forall i, j :: i in txs && j in txs && i != j && !txs[i].stage.Begun? && !txs[j].stage.Begun? ==>
          txs[i].id != txs[j].id)
    && (forall i, j :: i in txs && j in txs && i != j && Pending(txs[i]) != "" ==> Pending(txs[i]) != Pending(txs[j]))
  }

  ghost predicate RowInv(lib: Library, s: State, id: nat, r: Row) {
    && id < s.nextId && IdentityKept(lib, r) && Plain(lib, r).Some?
    && (Live(Plain(lib, r)) ==> Plain(lib, r).value in s.issued)
  }

  ghost predicate DistinctTokens(lib: Library, rows: map<nat, Row>) {
    forall a, b :: a in rows && b in rows && a != b && Live(Plain(lib, rows[a])) ==>
      Plain(lib, rows[a]) != Plain(lib, rows[b])
  }

  ghost predicate Inv(lib: Library, s: State) {
    && s.consumed <= s.issued
    && (forall id :: id in s.rows ==> RowInv(lib, s, id, s.rows[id]))
    && DistinctTokens(lib, s.rows)
    && Exclusive(s.txs)
    && forall i :: i in s.txs ==> TxInv(lib, s, s.txs[i])
  }

  lemma LocksInv(lib: Library, s: State, t: State, i: nat)
    requires Inv(lib, s) && Locks(s, t, i)
    ensures Inv(lib, t)
  {
    forall j | j in t.txs ensures TxInv(lib, t, t.txs[j]) {
      assert TxInv(lib, s, s.txs[j]);
    }
  }

  /** A transaction that a step neither moves nor touches the row of stands as before. */
  lemma TxStays(lib: Library, s: State, t: State, tx: Tx)
    requires TxInv(lib, s, tx) && t.rows == s.rows && t.issued == s.issued && t.consumed == s.consumed
    ensures TxInv(lib, t, tx)
  {
  }

  lemma EncryptedTx(lib: Library, s: State, tx: Tx, now: int, nonce: nat)
    requires Lawful(lib) && TxInv(lib, s, tx) && tx.stage.Answered?
    requires tx.id in s.rows ==> RowInv(lib, s, tx.id, s.rows[tx.id])
    requires Acceptable(lib, tx.stage.model, tx.stage.token, now)
    ensures var model := Refreshed(lib, tx.stage.model, tx.stage.token, now, nonce);
            TxInv(lib, s, tx.(stage := Ready(model, tx.stage.token, now)))
  {
    RefreshKeepsIdentity(lib, tx.stage.model, tx.stage.token, now, nonce);
  }

  lemma EncryptsInv(lib: Library, s: State, t: State, i: nat)
    requires Lawful(lib) && Inv(lib, s) && Encrypts(lib, s, t, i)
    ensures Inv(lib, t)
  {
    var tx := s.txs[i];
    var now, nonce :|
      && Acceptable(lib, tx.stage.model, tx.stage.token, now)
      && t == s.(txs := s.txs[i := tx.(stage :=
                   Ready(Refreshed(lib, tx.stage.model, tx.stage.token, now, nonce), tx.stage.token, now))]);
    EncryptedTx(lib, s, tx, now, nonce);
    TxStays(lib, s, t, t.txs[i]);
    forall j | j in t.txs ensures TxInv(lib, t, t.txs[j]) {
      if j != i {
        TxStays(lib, s, t, s.txs[j]);
      }
    }
    SameExclusion(s.txs, i, t.txs[i]);
  }

  /** Going on with the same row and the same pending token keeps the exclusion. */
  lemma SameExclusion(txs: map<nat, Tx>, i: nat, n: Tx)
    requires Exclusive(txs) && i in txs && !txs[i].stage.Begun? && n.id == txs[i].id && Pending(n) == Pending(txs[i])
    ensures Exclusive(txs[i := n])
  {
  }

  lemma AbortsInv(lib: Library, s: State, t: State, i: nat)
    requires Inv(lib, s) && (Aborts(s, t, i) || Begins(s, t, i))
    ensures Inv(lib, t)
  {
    forall j | j in t.txs ensures TxInv(lib, t, t.txs[j]) {
      if j in s.txs {
        assert TxInv(lib, s, s.txs[j]);
      }
    }
  }

  /** Consuming the token of one row leaves the standing of every other transaction alone. */
  lemma OthersUnaffected(lib: Library, s: State, t: State, i: nat, token: string)
    requires Inv(lib, s) && i in s.txs && s.txs[i].stage.Holding? && Presents(lib, s.txs[i].stage.model) == Some(token)
    requires t.rows == s.rows && s.issued <= t.issued && t.consumed <= s.consumed + {token}
    ensures token in s.issued
    ensures forall j :: j in s.txs && j != i ==> TxInv(lib, t, s.txs[j])
    ensures Unused(lib, s.rows - {s.txs[i].id}, token)
  {
    var tx := s.txs[i];
    assert TxInv(lib, s, tx);
    assert RowInv(lib, s, tx.id, s.rows[tx.id]);
    assert Plain(lib, s.rows[tx.id]) == Some(token) && token != "";
    forall j | j in s.txs && j != i ensures TxInv(lib, t, s.txs[j]) {
      assert TxInv(lib, s, s.txs[j]);
    }
  }

  lemma AnswersInv(lib: Library, s: State, t: State, i: nat, token: string, rotated: bool)
    requires Inv(lib, s) && Answers(lib, s, t, i, token, rotated)
    ensures Inv(lib, t)
  {
    OthersUnaffected(lib, s, t, i, token);
    var tx := s.txs[i];
    assert TxInv(lib, s, tx);
    forall id | id in t.rows ensures RowInv(lib, t, id, t.rows[id]) {
      assert RowInv(lib, s, id, s.rows[id]);
    }
    FreshIsUnused(lib, s, t.txs[i].stage.token.refresh);
    assert TxInv(lib, t, t.txs[i]);
  }

  lemma FreshIsUnused(lib: Library, s: State, token: string)
    requires Inv(lib, s)
    ensures token != "" && token !in s.issued ==>
              Unused(lib, s.rows, token) && forall j :: j in s.txs ==> Pending(s.txs[j]) != token
  {
    if token != "" && token !in s.issued {
      forall id | id in s.rows ensures Plain(lib, s.rows[id]) != Some(token) {
        assert RowInv(lib, s, id, s.rows[id]);
      }
      forall j | j in s.txs ensures Pending(s.txs[j]) != token {
        assert TxInv(lib, s, s.txs[j]);
      }
    }
  }

  lemma CallFailsInv(lib: Library, s: State, t: State, i: nat, token: string, rotated: bool)
    requires Inv(lib, s) && CallFails(lib, s, t, i, token, rotated)
    ensures Inv(lib, t)
  {
    OthersUnaffected(lib, s, t, i, token);
    forall id | id in t.rows ensures RowInv(lib, t, id, t.rows[id]) {
      assert RowInv(lib, s, id, s.rows[id]);
    }
  }

  lemma CommitsInv(lib: Library, s: State, t: State, i: nat)
    requires Inv(lib, s) && Commits(s, t, i)
    ensures Inv(lib, t)
  {
    var tx := s.txs[i];
    assert TxInv(lib, s, tx);
    assert t.rows[tx.id] == tx.stage.model;
    forall id | id in t.rows ensures RowInv(lib, t, id, t.rows[id]) {
      assert RowInv(lib, s, id, s.rows[id]);
    }
    forall j | j in t.txs ensures TxInv(lib, t, t.txs[j]) {
      assert TxInv(lib, s, s.txs[j]);
    }
  }

  lemma LogsInInv(lib: Library, s: State, t: State, token: Token, flow: Flow, browser: bool, now: int, nonce: nat)
    requires Lawful(lib) && Inv(lib, s) && LogsInWith(lib, s, t, token, flow, browser, now, nonce)
    ensures Inv(lib, t)
  {
    var row := SavedRow(lib, token, flow, now, nonce);
    SavedKeepsIdentity(lib, token, flow, browser, now, nonce);
    FreshIsUnused(lib, s, token.refresh);
    RowInserted(lib, s, t, row, token.refresh);
  }

  lemma RowInserted(lib: Library, s: State, t: State, row: Row, plain: string)
    requires Inv(lib, s) && IdentityKept(lib, row) && Plain(lib, row) == Some(plain)
    requires plain != "" ==> Unused(lib, s.rows, plain) && forall j :: j in s.txs ==> Pending(s.txs[j]) != plain
    requires t == s.(rows := s.rows[s.nextId := row], nextId := s.nextId + 1,
                     issued := if plain != "" then s.issued + {plain} else s.issued)
    ensures Inv(lib, t)
  {
    forall id | id in t.rows ensures RowInv(lib, t, id, t.rows[id]) {
      if id != s.nextId {
        assert RowInv(lib, s, id, s.rows[id]);
      }
    }
    assert forall id :: id in s.rows ==> RowInv(lib, s, id, s.rows[id]) && id != s.nextId;
    forall j | j in t.txs ensures TxInv(lib, t, t.txs[j]) {
      TxBeside(lib, s, t, s.txs[j], row, plain);
    }
  }

  lemma TxBeside(lib: Library, s: State, t: State, tx: Tx, row: Row, plain: string)
    requires TxInv(lib, s, tx) && s.nextId !in s.rows && Plain(lib, row) == Some(plain)
    requires plain != "" ==> Pending(tx) != plain
    requires t.rows == s.rows[s.nextId := row] && s.issued <= t.issued && t.consumed == s.consumed
    ensures TxInv(lib, t, tx)
  {
  }

  lemma DeletesInv(lib: Library, s: State, t: State, id: nat)
    requires Inv(lib, s) && Deletes(s, t, id)
    ensures Inv(lib, t)
  {
    forall x | x in t.rows ensures RowInv(lib, t, x, t.rows[x]) {
      assert RowInv(lib, s, x, s.rows[x]);
    }
    forall j | j in t.txs ensures TxInv(lib, t, t.txs[j]) {
      assert TxInv(lib, s, s.txs[j]);
    }
  }

  lemma NextInv(lib: Library, s: State, l: Label, t: State)
    requires Lawful(lib) && Inv(lib, s) && Next(lib, s, l, t)
    ensures Inv(lib, t)
  {
    match l
    case Quiet =>
      var i :| Begins(s, t, i) || Locks(s, t, i) || Encrypts(lib, s, t, i) || Aborts(s, t, i);
      if Locks(s, t, i) {
        LocksInv(lib, s, t, i);
      } else if Encrypts(lib, s, t, i) {
        EncryptsInv(lib, s, t, i);
      } else {
        AbortsInv(lib, s, t, i);
      }
    case Presented(id, token, rotated) =>
      var i :| i in s.txs && s.txs[i].id == id &&
        (Answers(lib, s, t, i, token, rotated) || CallFails(lib, s, t, i, token, rotated));
      if Answers(lib, s, t, i, token, rotated) {
        AnswersInv(lib, s, t, i, token, rotated);
      } else {
        CallFailsInv(lib, s, t, i, token, rotated);
      }
    case LoggedIn(id, user, token, now) =>
      var flow: Flow, browser, nonce :| flow.user == user && LogsInWith(lib, s, t, token, flow, browser, now, nonce);
      LogsInInv(lib, s, t, token, flow, browser, now, nonce);
    case Committed(id, _, _) =>
      var i :| Commits(s, t, i) && s.txs[i].id == id;
      CommitsInv(lib, s, t, i);
    case Deleted(id) => DeletesInv(lib, s, t, id);
  }

  // ---- over whole runs -------------------------------------------------------------------------

  /** A row's refresh token is the one last stored for it, and it has been consumed exactly when a rotation
      was lost. */
  ghost predicate RowMatches(lib: Library, s: State, labels: seq<Label>, id: nat) {
    id in s.rows ==>
      && LastStored(labels, id) == Plain(lib, s.rows[id])
      && (Live(Plain(lib, s.rows[id])) ==> (Plain(lib, s.rows[id]).value in s.consumed <==> RotationLost(labels, id)))
  }

  lemma HistorySnoc(labels: seq<Label>, l: Label, id: nat)
    ensures LastStored(labels + [l], id) ==
            if l.LoggedIn? && l.id == id then Some(l.handed.refresh)
            else if l.Committed? && l.id == id && l.handed.refresh != "" then Some(l.handed.refresh)
            else if l == Deleted(id) then None
            else LastStored(labels, id)
    ensures RotationLost(labels + [l], id) ==
            if l.Presented? && l.id == id && l.rotated then true
            else if (l.LoggedIn? || l.Committed?) && l.id == id then false
            else RotationLost(labels, id)
  {
    var all := labels + [l];
    assert all[..|all| - 1] == labels;
  }

  lemma HeldToken(lib: Library, s: State, i: nat, token: string)
    requires Inv(lib, s) && i in s.txs && s.txs[i].stage.Holding? && Presents(lib, s.txs[i].stage.model) == Some(token)
    ensures s.txs[i].id in s.rows && Plain(lib, s.rows[s.txs[i].id]) == Some(token) && token != ""
  {
    assert TxInv(lib, s, s.txs[i]);
  }

  lemma ConsumeMatches(lib: Library, s: State, labels: seq<Label>, l: Label, t: State, id: nat)
    requires l.Presented? && l.id in s.rows && Plain(lib, s.rows[l.id]) == Some(l.token) && l.token != ""
    requires t.rows == s.rows && t.consumed == if l.rotated then s.consumed + {l.token} else s.consumed
    requires DistinctTokens(lib, s.rows) && RowMatches(lib, s, labels, id)
    ensures RowMatches(lib, t, labels + [l], id)
  {
    HistorySnoc(labels, l, id);
  }

  lemma PresentedMatches(lib: Library, s: State, labels: seq<Label>, l: Label, t: State, id: nat)
    requires Inv(lib, s) && l.Presented? && Next(lib, s, l, t) && RowMatches(lib, s, labels, id)
    ensures RowMatches(lib, t, labels + [l], id)
  {
    var i :| i in s.txs && s.txs[i].id == l.id &&
      (Answers(lib, s, t, i, l.token, l.rotated) || CallFails(lib, s, t, i, l.token, l.rotated));
    HeldToken(lib, s, i, l.token);
    ConsumeMatches(lib, s, labels, l, t, id);
  }

  lemma CommitMatches(lib: Library, s: State, labels: seq<Label>, l: Label, t: State, id: nat, i: nat)
    requires Inv(lib, s) && Commits(s, t, i) && l.Committed? && l.id == s.txs[i].id && l.handed == s.txs[i].stage.token
    requires RowMatches(lib, s, labels, id)
    ensures RowMatches(lib, t, labels + [l], id)
  {
    HistorySnoc(labels, l, id);
    assert TxInv(lib, s, s.txs[i]);
  }

  lemma LoginMatches(lib: Library, s: State, labels: seq<Label>, l: Label, t: State, id: nat)
    requires Lawful(lib) && Inv(lib, s) && l.LoggedIn? && Next(lib, s, l, t)
    requires RowMatches(lib, s, labels, id)
    ensures RowMatches(lib, t, labels + [l], id)
  {
    HistorySnoc(labels, l, id);
    var flow: Flow, browser, nonce :|
      flow.user == l.user && LogsInWith(lib, s, t, l.handed, flow, browser, l.now, nonce);
    SavedKeepsIdentity(lib, l.handed, flow, browser, l.now, nonce);
  }

  lemma NextMatches(lib: Library, s: State, labels: seq<Label>, l: Label, t: State, id: nat)
    requires Lawful(lib) && Inv(lib, s) && Next(lib, s, l, t) && RowMatches(lib, s, labels, id)
    ensures RowMatches(lib, t, labels + [l], id)
  {
    match l
    case Quiet => HistorySnoc(labels, l, id);
    case Presented(_, _, _) => PresentedMatches(lib, s, labels, l, t, id);
    case LoggedIn(_, _, _, _) => LoginMatches(lib, s, labels, l, t, id);
    case Committed(x, token, now) =>
      var i :| Commits(s, t, i) && s.txs[i].id == x && s.txs[i].stage.token == token && s.txs[i].stage.now == now;
      CommitMatches(lib, s, labels, l, t, id, i);
    case Deleted(_) => HistorySnoc(labels, l, id);
  }

  lemma {:induction false} RunMatches(lib: Library, run: seq<State>, labels: seq<Label>, n: nat, id: nat)
    requires Lawful(lib) && IsRun(lib, run, labels) && n <= |labels|
    ensures Inv(lib, run[n]) && RowMatches(lib, run[n], labels[..n], id)
  {
    if n > 0 {
      RunMatches(lib, run, labels, n - 1, id);
      assert StepAt(lib, run, labels, n - 1);
      NextInv(lib, run[n - 1], labels[n - 1], run[n]);
      NextMatches(lib, run[n - 1], labels[..n - 1], labels[n - 1], run[n], id);
      assert labels[..n - 1] + [labels[n - 1]] == labels[..n];
    }
  }

  /** Whatever refreshes, logins and deletions run beside it, a refresh presents exactly the token last
      committed for its row; and that token has been consumed before if and only if an earlier rotation of
      the same row was never committed. */
  lemma PresentedIsLastStored(lib: Library, run: seq<State>, labels: seq<Label>, k: nat)
    requires Lawful(lib) && IsRun(lib, run, labels) && k < |labels| && labels[k].Presented?
    ensures LastStored(labels[..k], labels[k].id) == Some(labels[k].token)
    ensures labels[k].token in run[k].consumed <==> RotationLost(labels[..k], labels[k].id)
  {
    var s := run[k];
    var l := labels[k];
    RunMatches(lib, run, labels, k, l.id);
    assert StepAt(lib, run, labels, k);
    var i :| i in s.txs && s.txs[i].id == l.id &&
      (Answers(lib, s, run[k + 1], i, l.token, l.rotated) || CallFails(lib, s, run[k + 1], i, l.token, l.rotated));
    assert TxInv(lib, s, s.txs[i]);
  }

  /** Every rotation for the row was committed before the next token was presented for it. */
  ghost predicate EveryRotationCommits(labels: seq<Label>, id: nat) {
    forall k :: 0 <= k < |labels| && labels[k].Presented? && labels[k].id == id ==> !RotationLost(labels[..k], id)
  }

  /** When every provider success commits, no refresh ever presents a consumed token; and only then. */
  lemma NoConsumedTokenPresented(lib: Library, run: seq<State>, labels: seq<Label>, id: nat)
    requires Lawful(lib) && IsRun(lib, run, labels)
    ensures EveryRotationCommits(labels, id) <==>
            forall k :: 0 <= k < |labels| && labels[k].Presented? && labels[k].id == id ==>
              labels[k].token !in run[k].consumed
  {
    forall k | 0 <= k < |labels| && labels[k].Presented? && labels[k].id == id
      ensures labels[k].token in run[k].consumed <==> RotationLost(labels[..k], id)
    {
      PresentedIsLastStored(lib, run, labels, k);
    }
  }

  /** Only a login, a deletion or a committed refresh changes rows, each one row; so a refresh that fails,
      wherever it fails, leaves its row as it was, and none changes whose credential a row is. */
  lemma RowsChangeByCommitOnly(lib: Library, s: State, l: Label, t: State, id: nat)
    requires Lawful(lib) && Inv(lib, s) && Next(lib, s, l, t) && id in s.rows
    ensures (id in t.rows && t.rows[id] == s.rows[id]) || l == Deleted(id) || (l.Committed? && l.id == id)
    ensures id in t.rows ==>
              && t.rows[id].user == s.rows[id].user && t.rows[id].account == s.rows[id].account
              && t.rows[id].email == s.rows[id].email && t.rows[id].typ == s.rows[id].typ
              && IdentityKept(lib, t.rows[id])
  {
    NextInv(lib, s, l, t);
    if id in t.rows {
      assert RowInv(lib, t, id, t.rows[id]);
    }
    assert RowInv(lib, s, id, s.rows[id]);
  }

  /** After any history of logins, refreshes and deletions, the ID token of every row decrypts to one that was
      verified for the account of that row. */
  lemma IdentityAlways(lib: Library, run: seq<State>, labels: seq<Label>, id: nat)
    requires Lawful(lib) && IsRun(lib, run, labels) && id in run[|labels|].rows
    ensures IdentityKept(lib, run[|labels|].rows[id])
  {
    RunMatches(lib, run, labels, |labels|, id);
    assert RowInv(lib, run[|labels|], id, run[|labels|].rows[id]);
  }
}
