/** One-use login flows: stored under a key when a user starts to log in, consumed by the callback that
    finishes it. Browser flows are read and deleted in one operation; device flows are read, checked,
    and deleted only if they still hold the value that was read.
 */
module LoginFlows {
  import opened Wrappers
  import opened DevicePolling

  datatype Key = Browser(state: string) | Device(authId: string)

  /** What is stored; `verifier` stands for the PKCE verifier or the user code, `interval` is for devices. */
  datatype Flow = Flow(provider: string, user: nat, verifier: string, nonce: string, deviceAuthId: string,
                       interval: nat, expiresAt: int)

  // ---- the shared store, one operation at a time -----------------------------------------------

  predicate DeviceMatches(f: Flow, authId: string, provider: string, owner: nat, now: int) {
    f.user == owner && f.provider == provider && f.deviceAuthId == authId && f.expiresAt > now
  }

  datatype Error = InvalidState | StoreFailure | Undecodable

  class FlowStore {
    var flows: map<Key, Flow>

    constructor ()
      ensures flows == map[]
    {
      flows := map[];
    }

    method Store(key: Key, flow: Flow, reply: Reply) returns (err: Option<Error>)
      modifies this
      ensures err == if reply.Heard? then None else Some(StoreFailure)
      ensures flows == if reply != Unheard(false) then old(flows)[key := flow] else old(flows)
    {
      if Ran(reply) {
        flows := flows[key := flow];
      }
      return if reply.Heard? then None else Some(StoreFailure);
    }

    /** Reads and deletes in one operation: a second call for the same state finds nothing, also when what the
        first one read cannot be decoded, or does not reach it. */
    method PopFlow(state: string, reply: Reply, decodes: bool) returns (r: Result<Flow, Error>)
      modifies this
      ensures flows == if reply != Unheard(false) then old(flows) - {Browser(state)} else old(flows)
      ensures r.Ok? <==> reply.Heard? && Browser(state) in old(flows) && decodes
      ensures r.Ok? ==> r.value == old(flows)[Browser(state)]
      ensures r == Err(StoreFailure) <==> reply.Unheard?
      ensures r == Err(InvalidState) <==> reply.Heard? && Browser(state) !in old(flows)
    {
      var found := if Browser(state) in flows then Some(flows[Browser(state)]) else None;
      if Ran(reply) {
        flows := flows - {Browser(state)};
      }
      if reply.Unheard? {
        return Err(StoreFailure);
      }
      if found.None? {
        return Err(InvalidState);
      }
      return if decodes then Ok(found.value) else Err(Undecodable);
    }

    method Get(key: Key, readOk: bool) returns (r: Result<Option<Flow>, Error>)
      ensures r == if !readOk then Err(StoreFailure) else if key in flows then Ok(Some(flows[key])) else Ok(None)
    {
      if !readOk {
        return Err(StoreFailure);
      }
      r := if key in flows then Ok(Some(flows[key])) else Ok(None);
    }

    method DeleteIfSame(key: Key, flow: Flow, reply: Reply) returns (r: Result<bool, Error>)
      modifies this
      ensures var same := key in old(flows) && old(flows)[key] == flow;
              && r == (if reply.Heard? then Ok(same) else Err(StoreFailure))
              && flows == if same && reply != Unheard(false) then old(flows) - {key} else old(flows)
    {
      var same := key in flows && flows[key] == flow;
      if same && Ran(reply) {
        flows := flows - {key};
      }
      return if reply.Heard? then Ok(same) else Err(StoreFailure);
    }

    /** A wrong owner, provider or device, an expired flow, or one that cannot be read or decoded, changes
        nothing. */
    method PopDeviceFlow(authId: string, provider: string, owner: nat, now: int,
                         readOk: bool, decodes: bool, reply: Reply)
      returns (r: Result<Flow, Error>)
      modifies this
      ensures var key := Device(authId);
              var matches :=
                key in old(flows) && decodes && DeviceMatches(old(flows)[key], authId, provider, owner, now);
              && (!readOk ==> r == Err(StoreFailure))
              && (readOk && !matches ==> r == Err(InvalidState))
              && (readOk && matches ==> r == if reply.Heard? then Ok(old(flows)[key]) else Err(StoreFailure))
              && flows == if readOk && matches && reply != Unheard(false) then old(flows) - {key} else old(flows)
      ensures r.Ok? <==>
                && readOk && decodes && reply.Heard? && Device(authId) in old(flows)
                && var f := old(flows)[Device(authId)];
                   f.user == owner && f.provider == provider && f.deviceAuthId == authId && f.expiresAt > now
    {
      var key := Device(authId);
      var read := Get(key, readOk);
      if read.Err? {
        return Err(read.error);
      }
      var raw := read.value;
      if raw.None? || !decodes || !DeviceMatches(raw.value, authId, provider, owner, now) {
        return Err(InvalidState);
      }
      var consumed := DeleteIfSame(key, raw.value, reply);
      if consumed.Err? {
        return Err(consumed.error);
      }
      if !consumed.value {
        return Err(InvalidState);
      }
      return Ok(raw.value);
    }
  }

  // ---- any number of requests at once ----------------------------------------------------------

  /** A stored flow, with the number of the store operation that put it there. */
  datatype Entry = Entry(flow: Flow, origin: nat)

  datatype Stage =
    | Arrived
    | Seen(flow: Flow)                     // device flow read and checked, not yet claimed
    | Claimed(flow: Flow, origin: nat)     // flow consumed by this request

  datatype Request =
    | BrowserCallback(state: string, stage: Stage)
    | DeviceCallback(authId: string, provider: string, owner: nat, stage: Stage)

  /** An inserted credential row: its owner, and the store operation its login was started by. */
  datatype Inserted = Inserted(user: nat, origin: nat)

  datatype Stored = Stored(key: Key, flow: Flow)

  datatype State = State(
    entries: map<Key, Entry>,
    started: seq<Stored>,                  // every store operation so far
    consumed: seq<nat>,                    // the origins of every successful consumption so far
    requests: map<nat, Request>,
    rows: seq<Inserted>)

  function KeyOf(r: Request): Key {
    match r
    case BrowserCallback(state, _) => Browser(state)
    case DeviceCallback(authId, _, _, _) => Device(authId)
  }

  /** The flow keeps what the provider's accepted answer said. */
  predicate StartsDevice(authId: string, flow: Flow, code: string, raw: string) {
    Accepted(authId, code, raw) == Some(DeviceCode(flow.deviceAuthId, flow.verifier, flow.interval))
  }

  /** `Login` and `LoginDeviceFlow`: a flow is stored for the signed-in user, over any earlier one. */
  ghost predicate StartsLogin(s: State, t: State, key: Key, flow: Flow) {
    && flow.user != 0
    && (key.Device? ==> exists code, raw :: StartsDevice(key.authId, flow, code, raw))
    && t == s.(entries := s.entries[key := Entry(flow, |s.started|)], started := s.started + [Stored(key, flow)])
  }

  ghost predicate Expires(s: State, t: State, key: Key) {
    t == s.(entries := s.entries - {key})
  }

  ghost predicate Arrives(s: State, t: State, i: nat) {
    && i !in s.requests && i in t.requests && t.requests[i].stage == Arrived
    && t == s.(requests := s.requests[i := t.requests[i]])
  }

  /** The request reads the entry of its key and deletes it. */
  ghost predicate Consumes(s: State, t: State, i: nat) {
    && i in s.requests && KeyOf(s.requests[i]) in s.entries
    && var r := s.requests[i];
       var e := s.entries[KeyOf(r)];
       && (match r
           case BrowserCallback(_, stage) => stage == Arrived
           case DeviceCallback(_, _, _, stage) => stage == Seen(e.flow))
       && t == s.(entries := s.entries - {KeyOf(r)}, consumed := s.consumed + [e.origin],
                  requests := s.requests[i := r.(stage := Claimed(e.flow, e.origin))])
  }

  ghost predicate Reads(s: State, t: State, i: nat) {
    && i in s.requests && s.requests[i].DeviceCallback? && s.requests[i].stage == Arrived
    && KeyOf(s.requests[i]) in s.entries
    && var r := s.requests[i];
       var f := s.entries[KeyOf(r)].flow;
       && (exists now :: DeviceMatches(f, r.authId, r.provider, r.owner, now))
       && t == s.(requests := s.requests[i := r.(stage := Seen(f))])
  }

  /** Exchange and save succeed: one row, for the user of a browser flow or the owner of the request. */
  ghost predicate Inserts(s: State, t: State, i: nat) {
    && i in s.requests && s.requests[i].stage.Claimed?
    && var r := s.requests[i];
       var user := if r.BrowserCallback? then r.stage.flow.user else r.owner;
       t == s.(rows := s.rows + [Inserted(user, r.stage.origin)], requests := s.requests - {i})
  }

  ghost predicate Fails(s: State, t: State, i: nat) {
    i in s.requests && t == s.(requests := s.requests - {i})
  }

  ghost predicate Next(s: State, t: State) {
    || (exists key, flow :: StartsLogin(s, t, key, flow))
    || (exists key :: Expires(s, t, key))
    || (exists i :: Arrives(s, t, i) || Consumes(s, t, i) || Reads(s, t, i) || Inserts(s, t, i) || Fails(s, t, i))
  }

  ghost predicate StepAt(run: seq<State>, i: nat)
    requires i + 1 < |run|
  {
    Next(run[i], run[i + 1])
  }

  /** What the store holds: the numbering of store operations is bookkeeping of this model. */
  function Flows(entries: map<Key, Entry>): map<Key, Flow> {
    map k | k in entries :: entries[k].flow
  }

  /** Each step does to the store exactly what the operation of `FlowStore` behind it does, and a request
      claims the flow that operation hands out. */
  lemma StepsAreOperations(s: State, t: State, i: nat)
    ensures forall key, flow :: StartsLogin(s, t, key, flow) ==> Flows(t.entries) == Flows(s.entries)[key := flow]
    ensures Consumes(s, t, i) ==>
              var key := KeyOf(s.requests[i]);
              && Flows(t.entries) == Flows(s.entries) - {key}
              && t.requests[i].stage.flow == Flows(s.entries)[key]
              && (key.Device? ==> s.requests[i].stage.flow == Flows(s.entries)[key])
    ensures Reads(s, t, i) ==>
              t.entries == s.entries && t.requests[i].stage.flow == Flows(s.entries)[KeyOf(s.requests[i])]
    ensures Arrives(s, t, i) || Inserts(s, t, i) || Fails(s, t, i) ==> t.entries == s.entries
  {
    forall key, flow | StartsLogin(s, t, key, flow) ensures Flows(t.entries) == Flows(s.entries)[key := flow] {
    }
  }

  ghost predicate IsRun(run: seq<State>) {
    && |run| > 0 && run[0] == State(map[], [], [], map[], [])
    && forall i :: 0 <= i < |run| - 1 ==> StepAt(run, i)
  }

  // ---- what every step keeps -------------------------------------------------------------------

  /** Each live entry is the flow that its own store operation put there, and was not consumed yet. */
  ghost predicate EntriesInv(s: State) {
    && (forall k :: k in s.entries ==>
          && s.entries[k].origin < |s.started|
          && s.started[s.entries[k].origin] == Stored(k, s.entries[k].flow)
          && s.entries[k].origin !in s.consumed)
    && (forall j :: 0 <= j < |s.started| ==>
          s.started[j].flow.user != 0 && (s.started[j].key.Device? ==> 1 <= s.started[j].flow.interval <= WINDOW))
  }

  ghost predicate ConsumedInv(s: State) {
    NoDup(s.consumed) && forall j :: 0 <= j < |s.consumed| ==> s.consumed[j] < |s.started|
  }

  ghost predicate RequestInv(s: State, r: Request) {
    match r.stage
    case Arrived => true
    case Seen(f) => r.DeviceCallback? && f.user == r.owner && f.provider == r.provider && f.deviceAuthId == r.authId
    case Claimed(f, o) =>
      && o in s.consumed && o < |s.started| && s.started[o] == Stored(KeyOf(r), f)
      && (r.DeviceCallback? ==> f.user == r.owner && f.provider == r.provider)
  }

  ghost predicate RowsInv(s: State) {
    && (forall j :: 0 <= j < |s.rows| ==>
          s.rows[j].origin in s.consumed && s.rows[j].origin < |s.started| &&
          s.started[s.rows[j].origin].flow.user == s.rows[j].user)
    && (forall j, k :: 0 <= j < k < |s.rows| ==> s.rows[j].origin != s.rows[k].origin)
  }

  /** A consumed flow belongs to one request, or to one row, at a time. */
  ghost predicate ClaimsInv(s: State) {
    && (forall i, j :: i in s.requests && j in s.requests && i != j &&
                       s.requests[i].stage.Claimed? && s.requests[j].stage.Claimed? ==>
          s.requests[i].stage.origin != s.requests[j].stage.origin)
    && (forall i, j :: i in s.requests && s.requests[i].stage.Claimed? && 0 <= j < |s.rows| ==>
          s.rows[j].origin != s.requests[i].stage.origin)
  }

  ghost predicate Inv(s: State) {
    && EntriesInv(s) && ConsumedInv(s) && RowsInv(s) && ClaimsInv(s)
    && forall i :: i in s.requests ==> RequestInv(s, s.requests[i])
  }

  /** A request stands as before while nothing it rests on is taken back. */
  lemma RequestStays(s: State, t: State, r: Request)
    requires RequestInv(s, r) && s.started <= t.started && forall o :: o in s.consumed ==> o in t.consumed
    ensures RequestInv(t, r)
  {
  }

  lemma StartsInv(s: State, t: State, key: Key, flow: Flow)
    requires Inv(s) && StartsLogin(s, t, key, flow)
    ensures Inv(t)
  {
    assert forall o :: 0 <= o < |s.started| ==> t.started[o] == s.started[o];
    assert |s.started| !in s.consumed;
    forall i | i in t.requests ensures RequestInv(t, t.requests[i]) {
      RequestStays(s, t, s.requests[i]);
    }
  }

  lemma ConsumedMore(s: State, t: State, origin: nat)
    requires ConsumedInv(s) && origin < |s.started| && origin !in s.consumed
    requires t.consumed == s.consumed + [origin] && t.started == s.started
    ensures ConsumedInv(t) && forall o :: o in t.consumed <==> o in s.consumed || o == origin
  {
  }

  lemma ClaimedOne(s: State, t: State, i: nat, n: Request)
    requires ClaimsInv(s) && RowsInv(s) && i in s.requests && n.stage.Claimed? && n.stage.origin !in s.consumed
    requires forall j :: j in s.requests ==> RequestInv(s, s.requests[j])
    requires t.requests == s.requests[i := n] && t.rows == s.rows
    ensures ClaimsInv(t)
  {
    assert forall j :: j in s.requests && s.requests[j].stage.Claimed? ==>
      RequestInv(s, s.requests[j]) && s.requests[j].stage.origin != n.stage.origin;
  }

  lemma ConsumesInv(s: State, t: State, i: nat)
    requires Inv(s) && Consumes(s, t, i)
    ensures Inv(t)
  {
    var e := s.entries[KeyOf(s.requests[i])];
    assert RequestInv(s, s.requests[i]);
    ConsumedMore(s, t, e.origin);
    ClaimedOne(s, t, i, t.requests[i]);
    forall j | j in t.requests ensures RequestInv(t, t.requests[j]) {
      if j != i {
        RequestStays(s, t, s.requests[j]);
      }
    }
  }

  lemma InsertsInv(s: State, t: State, i: nat)
    requires Inv(s) && Inserts(s, t, i)
    ensures Inv(t)
  {
    assert RequestInv(s, s.requests[i]);
    forall j | j in t.requests ensures RequestInv(t, t.requests[j]) {
      RequestStays(s, t, s.requests[j]);
    }
  }

  lemma QuietInv(s: State, t: State, i: nat)
    requires Inv(s) && (Arrives(s, t, i) || Reads(s, t, i) || Fails(s, t, i))
    ensures Inv(t)
  {
    forall j | j in t.requests ensures RequestInv(t, t.requests[j]) {
      if j in s.requests {
        RequestStays(s, t, s.requests[j]);
      }
    }
  }

  lemma ExpiresInv(s: State, t: State, key: Key)
    requires Inv(s) && Expires(s, t, key)
    ensures Inv(t)
  {
    forall j | j in t.requests ensures RequestInv(t, t.requests[j]) {
      RequestStays(s, t, s.requests[j]);
    }
  }

  lemma NextInv(s: State, t: State)
    requires Inv(s) && Next(s, t)
    ensures Inv(t)
  {
    if key, flow :| StartsLogin(s, t, key, flow) {
      StartsInv(s, t, key, flow);
    } else if key :| Expires(s, t, key) {
      ExpiresInv(s, t, key);
    } else {
      var i :| Arrives(s, t, i) || Consumes(s, t, i) || Reads(s, t, i) || Inserts(s, t, i) || Fails(s, t, i);
      if Consumes(s, t, i) {
        ConsumesInv(s, t, i);
      } else if Inserts(s, t, i) {
        InsertsInv(s, t, i);
      } else {
        QuietInv(s, t, i);
      }
    }
  }

  lemma {:induction false} RunInv(run: seq<State>, i: nat)
    requires IsRun(run) && i < |run|
    ensures Inv(run[i])
  {
    if i > 0 {
      RunInv(run, i - 1);
      assert StepAt(run, i - 1);
      NextInv(run[i - 1], run[i]);
    }
  }

  // ---- over whole runs -------------------------------------------------------------------------

  /** The successful consumptions of a key, one element each. */
  function Consumptions(s: State, consumed: seq<nat>, key: Key): seq<nat> {
    if consumed == [] then []
    else
      var p := Consumptions(s, consumed[..|consumed| - 1], key);
      var o := consumed[|consumed| - 1];
      if o < |s.started| && s.started[o].key == key then p + [o] else p
  }

  /** The store operations of a key. */
  function Stores(s: State, key: Key): set<nat> {
    set j | 0 <= j < |s.started| && s.started[j].key == key
  }

  lemma {:induction false} ConsumptionsNoDup(s: State, consumed: seq<nat>, key: Key)
    requires NoDup(consumed)
    ensures NoDup(Consumptions(s, consumed, key))
    ensures forall o :: o in Consumptions(s, consumed, key) ==> o in consumed && o in Stores(s, key)
  {
    if consumed == [] {
    } else {
      var prefix := consumed[..|consumed| - 1];
      ConsumptionsNoDup(s, prefix, key);
      assert consumed == prefix + [consumed[|consumed| - 1]];
      assert consumed[|consumed| - 1] !in prefix;
      forall x | x in Consumptions(s, prefix, key) ensures x != consumed[|consumed| - 1] {
        assert x in prefix;
      }
    }
  }

  /** However starts, replays, stolen links and expiries interleave, a key is never consumed more often than
      it was stored. */
  lemma ConsumedAtMostStored(run: seq<State>, i: nat, key: Key)
    requires IsRun(run) && i < |run|
    ensures |Consumptions(run[i], run[i].consumed, key)| <= |Stores(run[i], key)|
  {
    RunInv(run, i);
    var s := run[i];
    var c := Consumptions(s, s.consumed, key);
    ConsumptionsNoDup(s, s.consumed, key);
    ElemsCard(c);
    SubsetCard(Elems(c), Stores(s, key));
  }

  /** Every inserted credential comes from a login of its own: a stored flow whose user is its owner, with
      no flow behind two rows. */
  lemma RowsComeFromFlows(run: seq<State>, i: nat)
    requires IsRun(run) && i < |run|
    ensures var s := run[i];
            && (forall j :: 0 <= j < |s.rows| ==>
                  s.rows[j].origin < |s.started| && s.started[s.rows[j].origin].flow.user == s.rows[j].user &&
                  s.rows[j].user != 0)
            && (forall j, k :: 0 <= j < k < |s.rows| ==> s.rows[j].origin != s.rows[k].origin)
            && |s.rows| <= |s.consumed| <= |s.started|
  {
    RunInv(run, i);
    var s := run[i];
    var origins := seq(|s.rows|, j requires 0 <= j < |s.rows| => s.rows[j].origin);
    ElemsCard(origins);
    ElemsCard(s.consumed);
    SubsetCard(Elems(origins), Elems(s.consumed));
    Below(s.consumed, |s.started|);
  }

  lemma Below(s: seq<nat>, n: nat)
    requires forall j :: 0 <= j < |s| ==> s[j] < n
    ensures |Elems(s)| <= n
  {
    BoundedSet(Elems(s), n);
  }

  lemma {:induction false} BoundedSet(s: set<nat>, n: nat)
    requires forall x :: x in s ==> x < n
    ensures |s| <= n
  {
    if n == 0 {
      assert s == {};
    } else {
      BoundedSet(s - {n - 1}, n - 1);
      assert s <= (s - {n - 1}) + {n - 1};
      SubsetCard(s, (s - {n - 1}) + {n - 1});
    }
  }

  /** A device callback can only get past its check with a flow its own user started for that provider, and
      the interval it then polls with is within the accepted range. */
  lemma DevicePollsOwnFlow(run: seq<State>, i: nat, r: nat)
    requires IsRun(run) && i < |run| && r in run[i].requests
    requires run[i].requests[r].DeviceCallback? && run[i].requests[r].stage.Claimed?
    ensures var s := run[i];
            var req := s.requests[r];
            && req.stage.origin < |s.started|
            && s.started[req.stage.origin] == Stored(Device(req.authId), req.stage.flow)
            && req.stage.flow.user == req.owner && req.stage.flow.provider == req.provider
            && 1 <= req.stage.flow.interval <= WINDOW
  {
    RunInv(run, i);
    assert RequestInv(run[i], run[i].requests[r]);
  }
}
