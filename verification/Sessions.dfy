/** Local sessions: refresh tokens in a shared store, rotated at every use.

    A token stands for its hash, under which it is stored; new tokens are random and assumed not to repeat.
 */
module Sessions {
  import opened Wrappers

  /** The rotation script: the old key goes, the new key takes its value. */
  function Rotated<T>(live: map<string, T>, previous: string, successor: string): map<string, T>
    requires previous in live
  {
    (live - {previous})[successor := live[previous]]
  }

  datatype Error = InvalidRefreshToken | UserDisabled | StoreFailure | DatabaseFailure | TokenFailure

  datatype User = User(active: bool)

  datatype Tokens = Tokens(user: nat, refresh: string)

  /** A login that names no known user, or the wrong password, is not an error. */
  datatype LoginResult = Unknown | Issued(tokens: Tokens) | Failed(error: Error)

  /** The script: nothing happens for an unknown token. */
  function AfterScript(live: map<string, nat>, previous: string, successor: string): map<string, nat> {
    if previous in live then Rotated(live, previous, successor) else live
  }

  class AuthService {
    var live: map<string, nat>             // refresh token to user id
    var users: map<nat, User>

    /** The caller gets the token exactly if the store confirmed it. */
    method CreateRefreshToken(user: nat, token: string, reply: Reply) returns (r: Option<string>)
      modifies this`live
      ensures r == if reply.Heard? then Some(token) else None
      ensures live == if reply != Unheard(false) then old(live)[token := user] else old(live)
    {
      if Ran(reply) {
        live := live[token := user];
      }
      return if reply.Heard? then Some(token) else None;
    }

    method RotateRefreshToken(previous: string, token: string, reply: Reply) returns (r: Result<Tokens, Error>)
      requires token !in live
      modifies this`live
      ensures r.Ok? <==> reply.Heard? && previous in old(live) && old(live)[previous] != 0
      ensures r.Ok? ==>
                && r.value == Tokens(old(live)[previous], token)
                && live == (old(live) - {previous})[token := old(live)[previous]]
      ensures reply.Unheard? ==> r == Err(StoreFailure) &&
                                 live == if reply.ran && previous in old(live)
                                         then (old(live) - {previous})[token := old(live)[previous]] else old(live)
      ensures reply.Heard? && r.Err? ==> r == Err(InvalidRefreshToken) && live == old(live) - {previous}
    {
      if reply.Unheard? {
        if reply.ran {
          live := AfterScript(live, previous, token);
        }
        return Err(StoreFailure);
      }
      if previous !in live {
        assert live - {previous} == live;
        return Err(InvalidRefreshToken);
      }
      var user := live[previous];
      live := AfterScript(live, previous, token);
      if user == 0 {
        live := live - {token};
        assert live == old(live) - {previous};
        return Err(InvalidRefreshToken);
      }
      return Ok(Tokens(user, token));
    }

    method DeleteRefreshToken(token: string, reply: Reply) returns (err: Option<Error>)
      modifies this`live
      ensures err == if reply.Heard? then None else Some(StoreFailure)
      ensures live == if reply != Unheard(false) then old(live) - {token} else old(live)
    {
      if Ran(reply) {
        live := live - {token};
      }
      return if reply.Heard? then None else Some(StoreFailure);
    }

    /** A login issues a token exactly to a known, active user with the right password. A token that the store
        took without confirming it is in nobody's hands. */
    method Login(user: nat, lookupOk: bool, passwordOk: bool, accessOk: bool, token: string, reply: Reply)
      returns (r: LoginResult)
      modifies this`live
      ensures r == Failed(DatabaseFailure) <==> !lookupOk
      ensures r == Unknown <==> lookupOk && (user !in users || !passwordOk)
      ensures r == Failed(UserDisabled) <==> lookupOk && user in users && passwordOk && !users[user].active
      ensures r == Failed(TokenFailure) <==>
                lookupOk && user in users && passwordOk && users[user].active && !accessOk
      ensures r.Issued? <==> lookupOk && user in users && passwordOk && users[user].active && accessOk && reply.Heard?
      ensures r.Issued? ==> r.tokens == Tokens(user, token) && live == old(live)[token := user]
      ensures r == Failed(StoreFailure) ==>
                reply.Unheard? && live == if reply.ran then old(live)[token := user] else old(live)
      ensures !r.Issued? && r != Failed(StoreFailure) ==> live == old(live)
    {
      if !lookupOk {
        return Failed(DatabaseFailure);
      }
      if user !in users || !passwordOk {
        return Unknown;
      }
      if !users[user].active {
        return Failed(UserDisabled);
      }
      if !accessOk {
        return Failed(TokenFailure);
      }
      var issued := CreateRefreshToken(user, token, reply);
      if issued.None? {
        return Failed(StoreFailure);
      }
      return Issued(Tokens(user, issued.value));
    }

    /** The token presented is spent whatever comes after it. When the user turns out to be gone or disabled,
        or a later step fails, its successor stays in the store although nobody was given it. */
    method Refresh(previous: string, token: string, reply: Reply, lookupOk: bool, accessOk: bool)
      returns (r: Result<Tokens, Error>)
      requires token !in live
      modifies this`live
      ensures reply.Heard? ==> previous !in live
      ensures r.Ok? <==> && reply.Heard? && previous in old(live) && old(live)[previous] != 0 && lookupOk && accessOk
                         && old(live)[previous] in users && users[old(live)[previous]].active
      ensures r.Ok? ==> r.value == Tokens(old(live)[previous], token)
      ensures reply.Heard? && previous in old(live) && old(live)[previous] != 0 ==>
                live == (old(live) - {previous})[token := old(live)[previous]]
      ensures reply.Heard? && (previous !in old(live) || old(live)[previous] == 0) ==>
                live == old(live) - {previous} && r == Err(InvalidRefreshToken)
      ensures reply.Unheard? ==> r == Err(StoreFailure) &&
                                 live == if reply.ran && previous in old(live)
                                         then (old(live) - {previous})[token := old(live)[previous]] else old(live)
      ensures r == Err(UserDisabled) <==>
                && reply.Heard? && previous in old(live) && old(live)[previous] != 0
                && lookupOk && old(live)[previous] in users && !users[old(live)[previous]].active
      ensures r == Err(DatabaseFailure) <==>
                reply.Heard? && previous in old(live) && old(live)[previous] != 0 && !lookupOk
      ensures r == Err(TokenFailure) <==>
                && reply.Heard? && previous in old(live) && old(live)[previous] != 0 && lookupOk
                && old(live)[previous] in users && users[old(live)[previous]].active && !accessOk
      ensures r == Err(InvalidRefreshToken) <==>
                && reply.Heard?
                && (previous in old(live) && old(live)[previous] != 0 ==> lookupOk && old(live)[previous] !in users)
    {
      var rotated := RotateRefreshToken(previous, token, reply);
      if rotated.Err? {
        return rotated;
      }
      if !lookupOk {
        return Err(DatabaseFailure);
      }
      if rotated.value.user !in users {
        return Err(InvalidRefreshToken);
      }
      if !users[rotated.value.user].active {
        return Err(UserDisabled);
      }
      if !accessOk {
        return Err(TokenFailure);
      }
      return rotated;
    }

    method Logout(token: string, reply: Reply) returns (err: Option<Error>)
      modifies this`live
      ensures err == if reply.Heard? then None else Some(StoreFailure)
      ensures live == if reply != Unheard(false) then old(live) - {token} else old(live)
    {
      err := DeleteRefreshToken(token, reply);
    }
  }

  // ---- lineages --------------------------------------------------------------------------------

  /** A live token, with its user and the login it descends from. */
  datatype Session = Session(user: nat, login: nat)

  datatype State = State(live: map<string, Session>, logins: seq<nat>, seen: set<string>)

  datatype Label =
    | Created(user: nat, token: string)
    | Rotation(previous: string, token: string)
    | Refused(token: string)               // presented, but not live
    | Removed(token: string)               // logged out or expired

  ghost predicate Next(s: State, l: Label, t: State) {
    match l
    case Created(user, token) =>
      && user != 0 && token !in s.seen
      && t == State(s.live[token := Session(user, |s.logins|)], s.logins + [user], s.seen + {token})
    case Rotation(o, token) =>
      o in s.live && token !in s.seen && t == s.(live := Rotated(s.live, o, token), seen := s.seen + {token})
    case Refused(token) => token !in s.live && t == s
    case Removed(token) => t == s.(live := s.live - {token})
  }

  ghost predicate StepAt(run: seq<State>, labels: seq<Label>, i: nat)
    requires i < |labels| < |run|
  {
    Next(run[i], labels[i], run[i + 1])
  }

  ghost predicate IsRun(run: seq<State>, labels: seq<Label>) {
    && |run| == |labels| + 1 && run[0] == State(map[], [], {})
    && forall i :: 0 <= i < |labels| ==> StepAt(run, labels, i)
  }

  /** What the store holds: the lineage is bookkeeping of this model. */
  function Users(live: map<string, Session>): map<string, nat> {
    map k | k in live :: live[k].user
  }

  /** Each step does to the store exactly what the operation of `AuthService` behind it does. */
  lemma StepsAreOperations(s: State, l: Label, t: State)
    requires Next(s, l, t)
    ensures match l
            case Created(user, token) => Users(t.live) == Users(s.live)[token := user]
            case Rotation(o, token) =>
              o in Users(s.live) && Users(t.live) == AfterScript(Users(s.live), o, token)
            case Refused(token) => token !in Users(s.live) && Users(t.live) == Users(s.live)
            case Removed(token) => Users(t.live) == Users(s.live) - {token}
  {
  }

  ghost predicate Inv(s: State) {
    && (forall k :: k in s.live ==>
          && k in s.seen && s.live[k].user != 0
          && s.live[k].login < |s.logins| && s.logins[s.live[k].login] == s.live[k].user)
    && (forall j, k :: j in s.live && k in s.live && j != k ==> s.live[j].login != s.live[k].login)
  }

  function SessionsOf(s: State, user: nat): set<string> {
    set k | k in s.live && s.live[k].user == user
  }

  ghost predicate Dead(s: State, login: nat) {
    forall k :: k in s.live ==> s.live[k].login != login
  }

  lemma NextInv(s: State, l: Label, t: State)
    requires Inv(s) && Next(s, l, t)
    ensures Inv(t)
  {
    match l
    case Created(user, token) => CreatedInv(s, t, user, token);
    case Rotation(previous, token) => RotationInv(s, t, previous, token);
    case Refused(_) =>
    case Removed(_) =>
  }

  lemma CreatedInv(s: State, t: State, user: nat, token: string)
    requires Inv(s) && Next(s, Created(user, token), t)
    ensures Inv(t)
  {
    forall k | k in t.live
      ensures t.live[k].login < |t.logins| && t.logins[t.live[k].login] == t.live[k].user
    {
      assert k != token ==> k in s.live && s.live[k] == t.live[k];
    }
  }

  lemma RotationInv(s: State, t: State, previous: string, token: string)
    requires Inv(s) && Next(s, Rotation(previous, token), t)
    ensures Inv(t)
  {
    assert t.live[token] == s.live[previous];
    forall k | k in t.live && k != token ensures k in s.live && k != previous && t.live[k] == s.live[k] {
    }
  }

  lemma NextGrows(s: State, l: Label, t: State)
    requires Next(s, l, t)
    ensures s.seen <= t.seen && s.logins <= t.logins
  {
  }

  /** A lineage without a live token does not get one by any step. */
  lemma StaysDead(s: State, l: Label, t: State, login: nat)
    requires Next(s, l, t) && login < |s.logins| && Dead(s, login)
    ensures Dead(t, login)
  {
  }

  /** A token that is no longer live does not become so by any step. */
  lemma StaysSpent(s: State, l: Label, t: State, token: string)
    requires Next(s, l, t) && token in s.seen && token !in s.live
    ensures token !in t.live
  {
  }

  /** A rotation replaces one session of one user; the number of live sessions of every user stays. */
  lemma RotationConserves(s: State, previous: string, token: string, t: State, user: nat)
    requires Inv(s) && Next(s, Rotation(previous, token), t)
    ensures |SessionsOf(t, user)| == |SessionsOf(s, user)|
    ensures t.live[token] == s.live[previous] && previous !in t.live
  {
    assert previous in s.live && token !in s.live;
    SessionsRotated(s, previous, token, t, user);
  }

  lemma SessionsRotated(s: State, previous: string, token: string, t: State, user: nat)
    requires previous in s.live && token !in s.live && t.live == Rotated(s.live, previous, token)
    ensures |SessionsOf(t, user)| == |SessionsOf(s, user)|
  {
    var before, after := SessionsOf(s, user), SessionsOf(t, user);
    if s.live[previous].user == user {
      assert previous in before && token !in before;
      assert after == before - {previous} + {token};
    } else {
      assert after == before;
    }
  }

  lemma {:induction false} RunInv(run: seq<State>, labels: seq<Label>, i: nat)
    requires IsRun(run, labels) && i <= |labels|
    ensures Inv(run[i])
  {
    if i > 0 {
      RunInv(run, labels, i - 1);
      assert StepAt(run, labels, i - 1);
      NextInv(run[i - 1], labels[i - 1], run[i]);
    }
  }

  /** Once spent or removed, a token is never live again, and a lineage without a live token never revives. */
  lemma {:induction false} NeverRevives(run: seq<State>, labels: seq<Label>, i: nat, j: nat, token: string, login: nat)
    requires IsRun(run, labels) && i <= j <= |labels|
    requires token in run[i].seen && token !in run[i].live
    ensures token in run[j].seen && token !in run[j].live
    ensures login < |run[i].logins| && Dead(run[i], login) ==> login < |run[j].logins| && Dead(run[j], login)
    decreases j
  {
    if j > i {
      NeverRevives(run, labels, i, j - 1, token, login);
      assert StepAt(run, labels, j - 1);
      NextGrows(run[j - 1], labels[j - 1], run[j]);
      StaysSpent(run[j - 1], labels[j - 1], run[j], token);
      if login < |run[i].logins| && Dead(run[i], login) {
        StaysDead(run[j - 1], labels[j - 1], run[j], login);
      }
    }
  }

  /** No token is rotated twice. */
  lemma RotatedOnce(run: seq<State>, labels: seq<Label>, i: nat, j: nat)
    requires IsRun(run, labels) && i < j < |labels| && labels[i].Rotation? && labels[j].Rotation?
    ensures labels[i].previous != labels[j].previous
  {
    RunInv(run, labels, i);
    assert StepAt(run, labels, i);
    NeverRevives(run, labels, i + 1, j, labels[i].previous, 0);
    assert StepAt(run, labels, j);
  }

  /** At every moment a login has at most one live descendant, and it carries the user of that login. */
  lemma OneLiveDescendant(run: seq<State>, labels: seq<Label>, i: nat, login: nat)
    requires IsRun(run, labels) && i <= |labels| && login < |run[i].logins|
    ensures var live := set k | k in run[i].live && run[i].live[k].login == login;
            |live| <= 1 && forall k :: k in live ==> run[i].live[k].user == run[i].logins[login]
  {
    RunInv(run, labels, i);
    var live := set k | k in run[i].live && run[i].live[k].login == login;
    if live != {} {
      var k :| k in live;
      assert live == {k};
    }
  }
}
