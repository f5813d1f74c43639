/** One browser tab: requests that fail with 401 share a single refresh and are sent again once, while the
    server spends a refresh token at every use.

    `Next` interleaves the tab's callbacks, the server and the network. The tab is signed in at the start,
    and may sign in again whenever no refresh is outstanding; nobody logs out, and its tokens do not
    expire. A request or its reply may be lost on the way, the
    server may fail before or after it has rotated the token, and the tab may give up waiting for a
    request that the server answers later: a grant lost in one of these ways is the one thing that can
    make the cookie stale.
 */
module BrowserRefresh {
  import opened Wrappers
  import opened Sessions

  datatype Phase =
    | Sent                     // on its way, reply outstanding
    | Waiting                  // got 401, waits for the shared refresh
    | Woken(ok: bool)          // the refresh has settled
    | Settled                  // resolved or rejected

  datatype Request = Request(sends: nat, retried: bool, skip: bool, phase: Phase)

  /** A refresh exchange: the token its cookie presented, and how far it has come. */
  datatype Exchange =
    | Outgoing(presented: string)
    | Granted(presented: string, successor: string)     // spent; the reply carries the new cookie
    | Denied(presented: string)                      // not live any more

  datatype State = State(
    live: map<string, nat>,                // the server's refresh tokens
    spent: set<string>,                    // those it has rotated away
    seen: set<string>,
    cookie: Option<string>,
    hasToken: bool,                        // an access token is stored
    requests: map<nat, Request>,
    exchanges: map<nat, Exchange>,         // refreshes the tab has sent and not heard back from
    abandoned: set<string>,                // tokens of requests given up that the server may still receive
    shared: Option<nat>,                   // the variable refreshRequest
    outcome: Option<bool>,                 // how the shared refresh ended, before its `finally` ran
    count: nat)                            // refreshes started

  datatype Label =
    | Quiet
    | Starts(presented: Option<string>)
    | ReplyLost(granted: bool)
    | LateGrant(current: bool)
    | SignedIn

  // ---- the tab ---------------------------------------------------------------------------------

  ghost predicate Issues(s: State, t: State, r: nat) {
    && r !in s.requests && r in t.requests
    && t.requests[r].sends == 1 && !t.requests[r].retried && t.requests[r].phase == Sent
    && t == s.(requests := s.requests[r := t.requests[r]])
  }

  /** Success, or an error other than 401, or a 401 that may not be retried. */
  ghost predicate Finishes(s: State, t: State, r: nat) {
    && r in s.requests && s.requests[r].phase == Sent
    && t == s.(requests := s.requests[r := s.requests[r].(phase := Settled)])
  }

  predicate MayRetry(s: State, r: Request) {
    r.phase == Sent && !r.skip && !r.retried && s.hasToken
  }

  function Retrying(r: Request): Request {
    r.(retried := true, phase := Waiting)
  }

  /** A 401 while a refresh is running: the request joins it. */
  ghost predicate Joins(s: State, t: State, r: nat) {
    && r in s.requests && MayRetry(s, s.requests[r]) && s.shared.Some?
    && t == s.(requests := s.requests[r := Retrying(s.requests[r])])
  }

  /** A 401 while none is running: a refresh is sent with whatever the cookie holds. */
  ghost predicate StartsRefresh(s: State, t: State, r: nat) {
    && r in s.requests && MayRetry(s, s.requests[r]) && s.shared == None
    && t == s.(requests := s.requests[r := Retrying(s.requests[r])],
               exchanges := s.exchanges[s.count := if s.cookie.Some? then Outgoing(s.cookie.value) else Denied("")],
               shared := Some(s.count), count := s.count + 1)
  }

  /** The reply arrives: the cookie is set or cleared, and the promise settles. `ok` is false if the body of
      a grant carries no access token. */
  ghost predicate Hears(s: State, t: State, ok: bool) {
    && s.shared.Some? && s.shared.value in s.exchanges
    && var e := s.exchanges[s.shared.value];
       && !e.Outgoing? && (e.Denied? ==> !ok)
       && t == s.(exchanges := s.exchanges - {s.shared.value},
                  cookie := if e.Granted? then Some(e.successor) else None,
                  hasToken := s.hasToken || ok,
                  outcome := Some(ok))
  }

  /** The request or its reply is lost, or takes too long, and the promise is rejected. */
  ghost predicate Loses(s: State, t: State, granted: bool) {
    && s.shared.Some? && s.shared.value in s.exchanges
    && var e := s.exchanges[s.shared.value];
       && granted == e.Granted?
       && t == s.(exchanges := s.exchanges - {s.shared.value}, outcome := Some(false),
                  abandoned := if e.Outgoing? then s.abandoned + {e.presented} else s.abandoned)
  }

  function Wake(r: Request, ok: bool): Request {
    if r.phase == Waiting then r.(phase := Woken(ok)) else r
  }

  /** The `finally` callback clears the variable, and everyone who awaited it goes on. */
  ghost predicate Clears(s: State, t: State) {
    && s.shared.Some? && s.outcome.Some?
    && t == s.(shared := None, outcome := None,
               requests := map r | r in s.requests :: Wake(s.requests[r], s.outcome.value))
  }

  ghost predicate SendsAgain(s: State, t: State, r: nat) {
    && r in s.requests && s.requests[r].phase == Woken(true)
    && t == s.(requests := s.requests[r := s.requests[r].(sends := s.requests[r].sends + 1, phase := Sent)])
  }

  ghost predicate GivesUp(s: State, t: State, r: nat) {
    && r in s.requests && s.requests[r].phase == Woken(false)
    && t == s.(requests := s.requests[r := s.requests[r].(phase := Settled)], hasToken := false)
  }

  /** A login sets the cookie and the access token; an earlier session of the tab stays behind. */
  ghost predicate SignsIn(s: State, t: State) {
    && s.shared == None && t.cookie.Some?
    && var token := t.cookie.value;
       && token !in s.seen && token in t.live
       && t == s.(live := s.live[token := t.live[token]], seen := s.seen + {token},
                  cookie := Some(token), hasToken := true)
  }

  // ---- the server ------------------------------------------------------------------------------

  ghost predicate Serves(s: State, t: State, x: nat) {
    && x in s.exchanges && s.exchanges[x].Outgoing? && x in t.exchanges
    && var previous := s.exchanges[x].presented;
       if previous in s.live then
         && t.exchanges[x].Granted? && t.exchanges[x].presented == previous && t.exchanges[x].successor !in s.seen
         && t == s.(exchanges := s.exchanges[x := t.exchanges[x]],
                    live := Rotated(s.live, previous, t.exchanges[x].successor),
                    spent := s.spent + {previous}, seen := s.seen + {t.exchanges[x].successor})
       else t == s.(exchanges := s.exchanges[x := Denied(previous)])
  }

  /** A request that the tab has given up is granted after all; nobody hears of it. */
  ghost predicate ServesLate(s: State, t: State, token: string) {
    && token in s.abandoned && token in s.live
    && exists successor :: successor !in s.seen &&
         t == s.(live := Rotated(s.live, token, successor), spent := s.spent + {token}, seen := s.seen + {successor})
  }

  /** Tokens that this tab holds, has sent, or is about to receive. */
  predicate Ours(s: State, token: string) {
    || s.cookie == Some(token)
    || (exists x :: x in s.exchanges && (s.exchanges[x].presented == token ||
                                         (s.exchanges[x].Granted? && s.exchanges[x].successor == token)))
  }

  /** Other tabs' and other users' sessions come, rotate and go. */
  ghost predicate Others(s: State, t: State) {
    && t == s.(live := t.live, spent := t.spent, seen := t.seen)
    && s.seen <= t.seen && s.spent <= t.spent
    && (forall token :: token in t.live ==> token in t.seen && token !in t.spent)
    && (forall token :: token in t.spent ==> token in t.seen)
    && (forall token :: Ours(s, token) ==>
          (token in t.live <==> token in s.live) && (token in t.spent <==> token in s.spent))
  }

  ghost predicate Next(s: State, l: Label, t: State) {
    match l
    case Quiet =>
      || (exists r :: Issues(s, t, r) || Finishes(s, t, r) || Joins(s, t, r) || SendsAgain(s, t, r) || GivesUp(s, t, r))
      || (exists ok :: Hears(s, t, ok))
      || (exists x :: Serves(s, t, x))
      || Clears(s, t) || Others(s, t)
    case Starts(presented) => presented == s.cookie && exists r :: StartsRefresh(s, t, r)
    case ReplyLost(granted) => Loses(s, t, granted)
    case LateGrant(current) => exists token :: ServesLate(s, t, token) && current == (s.cookie == Some(token))
    case SignedIn => SignsIn(s, t)
  }

  ghost predicate Init(s: State) {
    && s.cookie.Some? && s.cookie.value in s.live && s.hasToken
    && (forall token :: token in s.live ==> token in s.seen && token !in s.spent)
    && s.spent <= s.seen
    && s.requests == map[] && s.exchanges == map[] && s.abandoned == {}
    && s.shared == None && s.outcome == None && s.count == 0
  }

  ghost predicate StepAt(run: seq<State>, labels: seq<Label>, i: nat)
    requires i < |labels| < |run|
  {
    Next(run[i], labels[i], run[i + 1])
  }

  ghost predicate IsRun(run: seq<State>, labels: seq<Label>) {
    && |run| == |labels| + 1 && Init(run[0])
    && forall i :: 0 <= i < |labels| ==> StepAt(run, labels, i)
  }

  // ---- the tab's own code ----------------------------------------------------------------------

  /** The module's variables and callbacks. The rest of the state is the world's: a callback leaves it alone. */
  class Tab {
    var requests: map<nat, Request>
    var hasToken: bool
    var refreshRequest: Option<nat>
    var outcome: Option<bool>
    var exchanges: map<nat, Exchange>
    var count: nat

    predicate Shows(s: State)
      reads this
    {
      && requests == s.requests && hasToken == s.hasToken && refreshRequest == s.shared && outcome == s.outcome
      && exchanges == s.exchanges && count == s.count
    }

    function Apply(s: State): State
      reads this
    {
      s.(requests := requests, hasToken := hasToken, shared := refreshRequest, outcome := outcome,
         exchanges := exchanges, count := count)
    }

    /** The response interceptor: a request may wait for a refresh once; everything else is passed on. */
    method OnError(r: nat, status: int, s: State)
      requires Shows(s) && r in requests && requests[r].phase == Sent
      modifies this
      ensures status == 401 && MayRetry(s, s.requests[r]) && s.shared.Some? ==> Joins(s, Apply(s), r)
      ensures status == 401 && MayRetry(s, s.requests[r]) && s.shared == None ==> StartsRefresh(s, Apply(s), r)
      ensures status != 401 || !MayRetry(s, s.requests[r]) ==> Finishes(s, Apply(s), r)
      ensures hasToken == old(hasToken) && outcome == old(outcome) && requests == old(requests)[r := requests[r]]
      ensures var before := old(requests)[r];
              if status == 401 && !before.skip && !before.retried && old(hasToken) then
                && requests[r] == Request(before.sends, true, before.skip, Waiting)
                && refreshRequest.Some?
                && (old(refreshRequest).Some? ==>
                      refreshRequest == old(refreshRequest) && count == old(count) && exchanges == old(exchanges))
                && (old(refreshRequest).None? ==>
                      && refreshRequest == Some(old(count)) && count == old(count) + 1
                      && count - 1 in exchanges && exchanges == old(exchanges)[count - 1 := exchanges[count - 1]]
                      && (s.cookie.Some? ==> exchanges[count - 1] == Outgoing(s.cookie.value)))
              else
                && requests[r] == Request(before.sends, before.retried, before.skip, Settled)
                && refreshRequest == old(refreshRequest) && count == old(count) && exchanges == old(exchanges)
    {
      var original := requests[r];
      var canRefresh := hasToken;
      if status != 401 || original.skip || original.retried || !canRefresh {
        requests := requests[r := original.(phase := Settled)];
        return;
      }
      original := original.(retried := true);
      RequestNewAccessToken(s.cookie);
      requests := requests[r := original.(phase := Waiting)];
    }

    /** Starts a refresh only when none is running. */
    method RequestNewAccessToken(cookie: Option<string>)
      modifies this`refreshRequest, this`exchanges, this`count
      ensures old(refreshRequest).Some? ==>
                refreshRequest == old(refreshRequest) && exchanges == old(exchanges) && count == old(count)
      ensures old(refreshRequest) == None ==>
                && refreshRequest == Some(old(count)) && count == old(count) + 1
                && exchanges ==
                   old(exchanges)[old(count) := if cookie.Some? then Outgoing(cookie.value) else Denied("")]
    {
      if refreshRequest.None? {
        exchanges := exchanges[count := if cookie.Some? then Outgoing(cookie.value) else Denied("")];
        refreshRequest := Some(count);
        count := count + 1;
      }
    }

    /** `finally`, and the awaiting interceptors behind it. */
    method OnSettled(s: State)
      requires Shows(s) && s.shared.Some? && s.outcome.Some?
      modifies this
      ensures Clears(s, Apply(s))
      ensures refreshRequest == None && outcome == None
      ensures hasToken == old(hasToken) && exchanges == old(exchanges) && count == old(count)
      ensures requests.Keys == old(requests).Keys
      ensures forall r :: r in requests ==>
                requests[r] == if old(requests)[r].phase == Waiting
                               then old(requests)[r].(phase := Woken(old(outcome).value)) else old(requests)[r]
    {
      refreshRequest := None;
      requests := map r | r in requests :: Wake(requests[r], outcome.value);
      outcome := None;
    }

    method AfterRefresh(r: nat, s: State)
      requires Shows(s) && r in requests && requests[r].phase.Woken?
      modifies this
      ensures s.requests[r].phase.ok ==> SendsAgain(s, Apply(s), r)
      ensures !s.requests[r].phase.ok ==> GivesUp(s, Apply(s), r)
      ensures var before := old(requests)[r];
              if before.phase.ok then
                && requests == old(requests)[r := before.(sends := before.sends + 1, phase := Sent)]
                && hasToken == old(hasToken)
              else requests == old(requests)[r := before.(phase := Settled)] && !hasToken
      ensures refreshRequest == old(refreshRequest) && outcome == old(outcome)
      ensures exchanges == old(exchanges) && count == old(count)
    {
      var original := requests[r];
      if original.phase.ok {
        requests := requests[r := original.(sends := original.sends + 1, phase := Sent)];
      } else {
        hasToken := false;
        requests := requests[r := original.(phase := Settled)];
      }
    }
  }

  // ---- what every step keeps -------------------------------------------------------------------

  ghost predicate RequestInv(s: State, r: Request) {
    && 1 <= r.sends <= 2
    && (r.sends == 2 ==> r.retried)
    && (r.skip ==> !r.retried)
    && (r.phase.Waiting? ==> s.shared.Some?)
    && (r.phase.Waiting? || r.phase.Woken? ==> r.retried && r.sends == 1)
  }

  /** At most one exchange is outstanding, and it is the shared one. */
  ghost predicate SingleFlight(s: State) {
    && (forall x :: x in s.exchanges ==> s.shared == Some(x) && s.outcome == None)
    && (s.shared.Some? && s.outcome == None ==> s.shared.value in s.exchanges)
    && (s.outcome.Some? ==> s.shared.Some?)
  }

  ghost predicate TokensInv(s: State) {
    && (forall token :: token in s.live ==> token in s.seen && token !in s.spent)
    && s.spent <= s.seen
  }

  /** As long as no grant was lost, the cookie is good, or on its way to being replaced by a good one. After
      a grant was lost, the cookie is spent, or gone. */
  ghost predicate CookieInv(s: State, lost: bool) {
    if lost then
      && (s.cookie.Some? ==> s.cookie.value in s.spent)
      && forall x :: x in s.exchanges ==>
           !s.exchanges[x].Granted? && (s.exchanges[x].Outgoing? ==> s.exchanges[x].presented in s.spent)
    else
      && s.cookie.Some?
      && (s.exchanges == map[] ==> s.cookie.value in s.live)
      && forall x :: x in s.exchanges ==>
           && !s.exchanges[x].Denied? && s.exchanges[x].presented == s.cookie.value
           && (s.exchanges[x].Outgoing? ==> s.cookie.value in s.live)
           && (s.exchanges[x].Granted? ==> s.cookie.value in s.spent && s.exchanges[x].successor in s.live)
  }

  /** A token on its way to the tab has not been presented yet. */
  ghost predicate AbandonedInv(s: State) {
    && s.abandoned <= s.seen
    && forall x :: x in s.exchanges && s.exchanges[x].Granted? ==> s.exchanges[x].successor !in s.abandoned
  }

  ghost predicate Inv(s: State, lost: bool) {
    && SingleFlight(s) && TokensInv(s) && CookieInv(s, lost) && AbandonedInv(s)
    && forall r :: r in s.requests ==> RequestInv(s, s.requests[r])
  }

  lemma RequestsInv(s: State, t: State, r: nat, lost: bool)
    requires Inv(s, lost)
    requires Issues(s, t, r) || Finishes(s, t, r) || Joins(s, t, r) || SendsAgain(s, t, r) || GivesUp(s, t, r)
    ensures Inv(t, lost)
  {
    forall x | x in t.requests ensures RequestInv(t, t.requests[x]) {
      assert x in s.requests ==> RequestInv(s, s.requests[x]);
    }
  }

  lemma StartsInv(s: State, t: State, r: nat, lost: bool)
    requires Inv(s, lost) && StartsRefresh(s, t, r)
    ensures Inv(t, lost)
  {
    assert s.exchanges == map[];
    forall x | x in t.requests ensures RequestInv(t, t.requests[x]) {
      assert RequestInv(s, s.requests[x]);
    }
  }

  lemma LosesInv(s: State, t: State, granted: bool, lost: bool)
    requires Inv(s, lost) && Loses(s, t, granted)
    ensures Inv(t, lost || granted)
  {
    assert t.exchanges == map[];
    assert s.exchanges[s.shared.value].Outgoing? || s.exchanges[s.shared.value].Denied? || granted;
    forall x | x in t.requests ensures RequestInv(t, t.requests[x]) {
      assert RequestInv(s, s.requests[x]);
    }
  }

  lemma ClearsInv(s: State, t: State, lost: bool)
    requires Inv(s, lost) && Clears(s, t)
    ensures Inv(t, lost)
  {
    forall x | x in t.requests ensures RequestInv(t, t.requests[x]) {
      assert RequestInv(s, s.requests[x]);
    }
  }

  lemma QuietInv(s: State, t: State, lost: bool)
    requires Inv(s, lost) && Next(s, Quiet, t)
    ensures Inv(t, lost)
  {
    if x :| Serves(s, t, x) {
      ServesInv(s, t, x, lost);
    } else if ok :| Hears(s, t, ok) {
      HearsInv(s, t, ok, lost);
    } else if Others(s, t) {
      OthersInv(s, t, lost);
    } else if Clears(s, t) {
      ClearsInv(s, t, lost);
    } else {
      var r :| Issues(s, t, r) || Finishes(s, t, r) || Joins(s, t, r) || SendsAgain(s, t, r) || GivesUp(s, t, r);
      RequestsInv(s, t, r, lost);
    }
  }

  lemma NextInv(s: State, l: Label, t: State, lost: bool)
    requires Inv(s, lost) && Next(s, l, t)
    ensures Inv(t, LostAfter(lost, l))
  {
    match l
    case Quiet => QuietInv(s, t, lost);
    case Starts(_) =>
      var r :| StartsRefresh(s, t, r);
      StartsInv(s, t, r, lost);
    case ReplyLost(granted) => LosesInv(s, t, granted, lost);
    case LateGrant(current) =>
      var token :| ServesLate(s, t, token) && current == (s.cookie == Some(token));
      ServesLateInv(s, t, token, lost);
    case SignedIn => SignsInInv(s, t, lost);
  }

  lemma ServesInv(s: State, t: State, x: nat, lost: bool)
    requires Inv(s, lost) && Serves(s, t, x)
    ensures Inv(t, lost)
  {
  }

  lemma ServesLateInv(s: State, t: State, token: string, lost: bool)
    requires Inv(s, lost) && ServesLate(s, t, token)
    ensures Inv(t, lost || s.cookie == Some(token))
  {
    if s.cookie == Some(token) {
      forall x | x in t.exchanges
        ensures t.exchanges[x].Outgoing? && t.exchanges[x].presented in t.spent
      {
        assert token !in s.spent;
      }
    }
    forall x | x in t.requests ensures RequestInv(t, t.requests[x]) {
      assert RequestInv(s, s.requests[x]);
    }
  }

  lemma SignsInInv(s: State, t: State, lost: bool)
    requires Inv(s, lost) && SignsIn(s, t)
    ensures Inv(t, false)
  {
    assert s.exchanges == map[];
    forall x | x in t.requests ensures RequestInv(t, t.requests[x]) {
      assert RequestInv(s, s.requests[x]);
    }
  }

  lemma HearsInv(s: State, t: State, ok: bool, lost: bool)
    requires Inv(s, lost) && Hears(s, t, ok)
    ensures Inv(t, lost)
  {
    assert t.exchanges == map[];
  }

  lemma OthersInv(s: State, t: State, lost: bool)
    requires Inv(s, lost) && Others(s, t)
    ensures Inv(t, lost)
  {
    assert s.cookie.Some? ==> Ours(s, s.cookie.value);
    forall x | x in s.exchanges
      ensures Ours(s, s.exchanges[x].presented) && (s.exchanges[x].Granted? ==> Ours(s, s.exchanges[x].successor))
    {
    }
  }

  function LostAfter(lost: bool, l: Label): bool {
    !l.SignedIn? && (lost || l == ReplyLost(true) || l == LateGrant(true))
  }

  /** Since the tab signed in, a grant for the token in its cookie was lost. */
  function GrantLost(labels: seq<Label>): bool {
    labels != [] && LostAfter(GrantLost(labels[..|labels| - 1]), labels[|labels| - 1])
  }

  lemma {:induction false} RunInv(run: seq<State>, labels: seq<Label>, i: nat)
    requires IsRun(run, labels) && i <= |labels|
    ensures Inv(run[i], GrantLost(labels[..i]))
  {
    if i > 0 {
      RunInv(run, labels, i - 1);
      assert StepAt(run, labels, i - 1);
      NextInv(run[i - 1], labels[i - 1], run[i], GrantLost(labels[..i - 1]));
      assert labels[..i][..i - 1] == labels[..i - 1];
    }
  }

  /** In every reachable state at most one refresh is outstanding, and each request has been sent at most
      twice: the second time only after a 401 to the first. */
  lemma SingleRefreshAndSingleRetry(run: seq<State>, labels: seq<Label>, i: nat)
    requires IsRun(run, labels) && i <= |labels|
    ensures |run[i].exchanges| <= 1
    ensures forall r :: r in run[i].requests ==>
              run[i].requests[r].sends <= 2 && (run[i].requests[r].sends == 2 ==> run[i].requests[r].retried)
  {
    RunInv(run, labels, i);
    var s := run[i];
    assert forall r :: r in s.requests ==> RequestInv(s, s.requests[r]);
    if s.exchanges != map[] {
      var x :| x in s.exchanges;
      assert s.exchanges.Keys == {x};
    }
  }

  /** A request that asks to be left alone is never retried, and one that has not failed with 401 is never sent
      again. */
  lemma SkippedNeverRetried(run: seq<State>, labels: seq<Label>, i: nat, r: nat)
    requires IsRun(run, labels) && i <= |labels| && r in run[i].requests
    ensures run[i].requests[r].skip || !run[i].requests[r].retried ==> run[i].requests[r].sends == 1
    ensures run[i].requests[r].skip ==> !run[i].requests[r].retried && !run[i].requests[r].phase.Waiting?
  {
    RunInv(run, labels, i);
    assert RequestInv(run[i], run[i].requests[r]);
  }

  /** A refresh presents a token that was rotated before if and only if the grant of an earlier refresh since
      the last login was lost; otherwise it presents a live one, whatever requests, 401 replies and other
      sessions interleave. */
  lemma RotatedTokenPresentedExactly(run: seq<State>, labels: seq<Label>, i: nat)
    requires IsRun(run, labels) && i < |labels| && labels[i].Starts?
    ensures !GrantLost(labels[..i]) ==> labels[i].presented.Some? && labels[i].presented.value in run[i].live
    ensures labels[i].presented.Some? ==> (labels[i].presented.value in run[i].spent <==> GrantLost(labels[..i]))
  {
    RunInv(run, labels, i);
    assert StepAt(run, labels, i);
    var r :| StartsRefresh(run[i], run[i + 1], r);
    assert run[i].exchanges == map[];
  }

  /** The token has been presented: its refresh is outstanding, or the tab no longer holds it. */
  ghost predicate UsedUp(s: State, token: string) {
    && token in s.seen
    && (forall x :: x in s.exchanges && s.exchanges[x].Granted? ==> s.exchanges[x].successor != token)
    && (s.cookie != Some(token) ||
        (s.shared.Some? && s.outcome == None && s.exchanges != map[] &&
         forall x :: x in s.exchanges ==> s.shared == Some(x)))
  }

  lemma HearingUsesUp(s: State, t: State, token: string, ok: bool)
    requires UsedUp(s, token) && Hears(s, t, ok) && SingleFlight(s)
    ensures UsedUp(t, token)
  {
  }

  lemma ServingUsesUp(s: State, t: State, token: string, x: nat)
    requires UsedUp(s, token) && Serves(s, t, x)
    ensures UsedUp(t, token)
  {
    assert t.exchanges.Keys == s.exchanges.Keys;
  }

  lemma UntouchedUsedUp(s: State, t: State, token: string)
    requires UsedUp(s, token) && s.seen <= t.seen && t.exchanges == s.exchanges
    requires t.cookie == s.cookie || t.cookie != Some(token)
    requires (t.shared == s.shared && t.outcome == s.outcome) || s.outcome.Some? || s.shared == None
    ensures UsedUp(t, token)
  {
  }

  lemma QuietUsedUp(s: State, t: State, token: string)
    requires SingleFlight(s) && UsedUp(s, token) && Next(s, Quiet, t)
    ensures UsedUp(t, token)
  {
    if ok :| Hears(s, t, ok) {
      HearingUsesUp(s, t, token, ok);
    } else if x :| Serves(s, t, x) {
      ServingUsesUp(s, t, token, x);
    } else {
      UntouchedUsedUp(s, t, token);
    }
  }

  lemma StartingUsedUp(s: State, t: State, token: string, r: nat)
    requires UsedUp(s, token) && StartsRefresh(s, t, r)
    ensures s.cookie != Some(token) && UsedUp(t, token)
  {
  }

  lemma NextUsedUp(s: State, l: Label, t: State, token: string)
    requires SingleFlight(s) && UsedUp(s, token) && Next(s, l, t) && !l.ReplyLost?
    ensures UsedUp(t, token)
  {
    match l
    case Quiet => QuietUsedUp(s, t, token);
    case Starts(_) =>
      var r :| StartsRefresh(s, t, r);
      StartingUsedUp(s, t, token, r);
    case LateGrant(_) => UntouchedUsedUp(s, t, token);
    case SignedIn => UntouchedUsedUp(s, t, token);
  }

  lemma {:induction false} StaysUsedUp(run: seq<State>, labels: seq<Label>, i: nat, j: nat, token: string)
    requires IsRun(run, labels) && i <= j <= |labels| && UsedUp(run[i], token)
    requires forall k :: i <= k < j ==> !labels[k].ReplyLost?
    ensures UsedUp(run[j], token)
    decreases j
  {
    if j > i {
      StaysUsedUp(run, labels, i, j - 1, token);
      RunInv(run, labels, j - 1);
      assert StepAt(run, labels, j - 1);
      NextUsedUp(run[j - 1], labels[j - 1], run[j], token);
    }
  }

  lemma StartUsesUp(run: seq<State>, labels: seq<Label>, i: nat)
    requires IsRun(run, labels) && i < |labels| && labels[i].Starts? && labels[i].presented.Some?
    ensures UsedUp(run[i + 1], labels[i].presented.value)
  {
    RunInv(run, labels, i);
    assert StepAt(run, labels, i);
    var r :| StartsRefresh(run[i], run[i + 1], r);
    assert run[i].exchanges == map[];
    assert run[i].count in run[i + 1].exchanges;
  }

  /** No token is presented twice unless a reply was lost in between: a grant replaces it in the cookie, and a
      refusal clears the cookie. */
  lemma PresentedOnce(run: seq<State>, labels: seq<Label>, i: nat, j: nat)
    requires IsRun(run, labels) && i < j < |labels| && labels[i].Starts? && labels[j].Starts?
    requires labels[i].presented.Some? && labels[j].presented == labels[i].presented
    ensures exists k :: i < k < j && labels[k].ReplyLost?
  {
    assert StepAt(run, labels, j);
    var r :| StartsRefresh(run[j], run[j + 1], r);
    StartUsesUp(run, labels, i);
    if forall k :: i < k < j ==> !labels[k].ReplyLost? {
      StaysUsedUp(run, labels, i + 1, j, labels[i].presented.value);
    }
  }
}
