/** Waiting for a device approval: where the poll interval comes from, and the polling loop. Times are in
    seconds; an attempt or a wait may take any time its deadline allows. */
module DevicePolling {
  import opened Wrappers

  const MAX_UINT32 := 4294967295
  const WINDOW := 900                       // 15 minutes

  // ---- the interval ----------------------------------------------------------------------------

  function Digits(s: string): Option<nat> {
    if s == "" then Some(0)
    else
      var p := Digits(s[..|s| - 1]);
      var c := s[|s| - 1];
      if p.None? || c < '0' || c > '9' then None else Some(10 * p.value + (c as int - '0' as int))
  }

  /** An unsigned decimal of at most 32 bits. */
  function ParseUint32(s: string): Option<nat> {
    if s == "" then None
    else
      var d := Digits(s);
      if d.Some? && d.value <= MAX_UINT32 then d else None
  }

  function Digit(n: nat): char
    requires n < 10
  {
    ('0' as int + n) as char
  }

  /** The decimal numeral of a number. */
  function Decimal(n: nat): string {
    (if n < 10 then "" else Decimal(n / 10)) + [Digit(n % 10)]
  }

  lemma DigitAppended(s: string, n: nat, digit: nat)
    requires digit < 10 && Digits(s) == Some(n)
    ensures Digits(s + [Digit(digit)]) == Some(10 * n + digit)
  {
    assert (s + [Digit(digit)])[..|s|] == s;
  }

  lemma {:induction false} DecimalParses(n: nat)
    ensures Decimal(n) != "" && Digits(Decimal(n)) == Some(n)
  {
    if n < 10 {
      DigitAppended("", 0, n);
    } else {
      DecimalParses(n / 10);
      DigitAppended(Decimal(n / 10), n / 10, n % 10);
    }
  }

  /** Numerals of numbers below 2^32 are read back, larger ones and anything but digits refused. */
  lemma NumeralsReadBack(n: nat, s: string)
    ensures ParseUint32(Decimal(n)) == if n < 0x1_0000_0000 then Some(n) else None
    ensures (exists i :: 0 <= i < |s| && !('0' <= s[i] <= '9')) ==> ParseUint32(s) == None
    ensures ParseUint32("") == None
  {
    DecimalParses(n);
    OnlyDigits(s);
  }

  lemma {:induction false} OnlyDigits(s: string)
    ensures Digits(s).Some? ==> forall i :: 0 <= i < |s| ==> '0' <= s[i] <= '9'
  {
    if s != "" {
      OnlyDigits(s[..|s| - 1]);
    }
  }

  datatype DeviceCode = DeviceCode(deviceAuthId: string, userCode: string, interval: nat)

  /** What is made of the provider's answer, if it is accepted. */
  function Accepted(deviceAuthId: string, userCode: string, interval: string): Option<DeviceCode> {
    var n := ParseUint32(interval);
    if deviceAuthId != "" && userCode != "" && n.Some? && 1 <= n.value <= WINDOW then
      Some(DeviceCode(deviceAuthId, userCode, n.value))
    else None
  }

  /** The provider's answer, checked. */
  method GetDeviceFlowCode(deviceAuthId: string, userCode: string, interval: string) returns (r: Option<DeviceCode>)
    ensures r == Accepted(deviceAuthId, userCode, interval)
    ensures r.Some? <==> && deviceAuthId != "" && userCode != "" && ParseUint32(interval).Some?
                         && 1 <= ParseUint32(interval).value <= 900
    ensures r.Some? ==> r.value == DeviceCode(deviceAuthId, userCode, ParseUint32(interval).value)
  {
    var n := ParseUint32(interval);
    if n.None? || n.value == 0 || n.value > 900 || deviceAuthId == "" || userCode == "" {
      return None;
    }
    return Some(DeviceCode(deviceAuthId, userCode, n.value));
  }

  // ---- the loop --------------------------------------------------------------------------------

  datatype Answer = Pending | Approved | Failed

  datatype End = InvalidArgument | NotConfigured | Done | Error | TimedOut

  /** A request to poll: which provider, and what was handed out for the device. */
  datatype Poll = Poll(provider: string, deviceAuthId: string, userCode: string, interval: nat)

  predicate WellFormed(p: Poll) {
    p.provider != "" && p.deviceAuthId != "" && p.userCode != "" && 1 <= p.interval <= WINDOW
  }

  /** What the outside decides about attempt `n`: the provider's reply and when it comes, how late the
      timer fires, and which of two ready channels the select takes. */
  datatype World = World(reply: nat -> Answer, took: nat -> nat, late: nat -> nat, timerWins: nat -> bool)

  /** ceil(a / b) */
  function CeilDiv(a: nat, b: nat): nat
    requires b > 0
  {
    (a + b - 1) / b
  }

  lemma CeilingExactly(a: nat, b: nat)
    requires b > 0
    ensures a <= b * CeilDiv(a, b) < a + b
  {
  }

  function CountBefore(starts: seq<nat>, deadline: nat): nat {
    if starts == [] then 0
    else CountBefore(starts[..|starts| - 1], deadline) + if starts[|starts| - 1] < deadline then 1 else 0
  }

  /** Consecutive attempts start at least the interval apart, the first at time 0 or later. */
  ghost predicate Spaced(starts: seq<nat>, interval: nat) {
    forall i :: 0 <= i < |starts| - 1 ==> starts[i] + interval <= starts[i + 1]
  }

  /** When the attempt after attempt `n`, started at `at`, starts. */
  function NextStart(at: nat, n: nat, interval: nat, w: World): nat {
    at + w.took(n) + interval + w.late(n)
  }

  /** Every attempt starts when the timer set after the reply to the one before has fired. */
  ghost predicate Scheduled(starts: seq<nat>, interval: nat, w: World) {
    forall i :: 0 <= i < |starts| - 1 ==> starts[i + 1] == NextStart(starts[i], i, interval, w)
  }

  /** Everything asked so far was answered with "pending", and the next attempt is due at `at`. */
  ghost predicate Waiting(starts: seq<nat>, at: nat, interval: nat, deadline: nat, w: World) {
    && Scheduled(starts + [at], interval, w) && (starts + [at])[0] == 0
    && forall i :: 0 <= i < |starts| ==> starts[i] < deadline && w.reply(i) == Pending
  }

  lemma ScheduledSpaced(starts: seq<nat>, interval: nat, w: World)
    requires Scheduled(starts, interval, w)
    ensures Spaced(starts, interval)
  {
  }

  /** Polls from time 0 until the context ends at `deadline`; `timeout` limits one attempt. An attempt under
      an ended context fails at once. */
  method PollLoop(interval: nat, deadline: nat, timeout: nat, w: World)
    returns (starts: seq<nat>, finish: nat, end: End)
    requires interval > 0
    ensures end != InvalidArgument && end != NotConfigured
    ensures starts != [] && starts[0] == 0 && Scheduled(starts, interval, w)
    ensures forall i :: 0 <= i < |starts| - 1 ==> starts[i] < deadline && w.reply(i) == Pending
    ensures starts[|starts| - 1] >= deadline ==> end == TimedOut && finish == starts[|starts| - 1]
    ensures var last := |starts| - 1;
            var inTime := w.took(last) < timeout && starts[last] + w.took(last) < deadline;
            && (end == Done <==> inTime && w.reply(last) == Approved)
            && (inTime && w.reply(last) == Failed ==> end == Error)
    ensures end == Done ==> finish == starts[|starts| - 1] + w.took(|starts| - 1)
    ensures end == Error ==> w.reply(|starts| - 1) == Failed || w.took(|starts| - 1) >= timeout
    ensures end == TimedOut ==> finish >= deadline
  {
    starts := [];
    finish := 0;
    end := TimedOut;
    while true
      invariant end == TimedOut
      invariant Waiting(starts, finish, interval, deadline, w)
      decreases deadline - finish
    {
      var n := |starts|;
      StillWaiting(starts, finish, interval, deadline, w);
      starts := starts + [finish];
      if finish >= deadline {
        return;
      }
      var limit := if finish + timeout < deadline then finish + timeout else deadline;
      var answered := finish + w.took(n);
      if answered >= limit {
        finish := limit;
        end := if limit == deadline then TimedOut else Error;
        return;
      }
      if w.reply(n) == Failed {
        return starts, answered, Error;
      }
      if w.reply(n) == Approved {
        return starts, answered, Done;
      }
      var fires := answered + interval + w.late(n);
      if fires >= deadline && !w.timerWins(n) {
        finish := deadline;
        return;
      }
      finish := fires;
    }
  }

  lemma StillWaiting(starts: seq<nat>, at: nat, interval: nat, deadline: nat, w: World)
    requires Waiting(starts, at, interval, deadline, w)
    ensures at < deadline && w.reply(|starts|) == Pending ==>
              Waiting(starts + [at], NextStart(at, |starts|, interval, w), interval, deadline, w)
  {
    var more := starts + [at];
    var next := more + [NextStart(at, |starts|, interval, w)];
    assert next[0] == more[0];
    forall i | 0 <= i < |next| - 1 ensures next[i + 1] == NextStart(next[i], i, interval, w) {
      if i < |more| - 1 {
        assert more[i + 1] == NextStart(more[i], i, interval, w);
      }
    }
  }

  /** When all attempts but the last start before the deadline, at most one does not. */
  lemma {:induction false} AllButLast(starts: seq<nat>, deadline: nat)
    requires forall i :: 0 <= i < |starts| - 1 ==> starts[i] < deadline
    ensures CountBefore(starts, deadline) <= |starts| <= CountBefore(starts, deadline) + 1
    ensures starts != [] && starts[|starts| - 1] < deadline ==> CountBefore(starts, deadline) == |starts|
  {
    if starts != [] {
      AllButLast(starts[..|starts| - 1], deadline);
    }
  }

  /** Attempt `i` does not start before `i` intervals have passed. */
  lemma {:induction false} SpacedFromStart(starts: seq<nat>, interval: nat, i: nat)
    requires Spaced(starts, interval) && i < |starts|
    ensures interval * i <= starts[i]
  {
    if i > 0 {
      SpacedFromStart(starts, interval, i - 1);
      assert starts[i - 1] + interval <= starts[i - 1 + 1];
      assert interval * i == interval * (i - 1) + interval;
    }
  }

  /** At most ceil(deadline / interval) of spaced attempts start before the deadline. */
  lemma {:induction false} AttemptsInTime(starts: seq<nat>, interval: nat, deadline: nat)
    requires Spaced(starts, interval) && interval > 0
    ensures CountBefore(starts, deadline) <= CeilDiv(deadline, interval)
    ensures CountBefore(starts, deadline) <= |starts|
  {
    if starts == [] {
    } else {
      var n := |starts| - 1;
      var p := starts[..n];
      assert Spaced(p, interval) by {
        forall i | 0 <= i < |p| - 1 ensures p[i] + interval <= p[i + 1] {
          assert starts[i] + interval <= starts[i + 1];
        }
      }
      AttemptsInTime(p, interval, deadline);
      if starts[n] < deadline {
        SpacedFromStart(starts, interval, n);
        MultipleBelow(interval, deadline, n);
      }
    }
  }

  lemma MultipleBelow(interval: nat, deadline: nat, n: nat)
    requires interval > 0 && interval * n < deadline
    ensures n + 1 <= CeilDiv(deadline, interval)
  {
    var q := CeilDiv(deadline, interval);
    assert interval * q >= deadline;
    assert interval * n < interval * q;
  }

  /** The context ends with the window, or with the caller's context if that is earlier. At most
      ceil(deadline / interval) attempts start before the deadline, and at most one more, which fails at once. */
  method PollDeviceFlow(p: Poll, configured: bool, callerDeadline: nat, timeout: nat, w: World)
    returns (starts: seq<nat>, finish: nat, end: End)
    ensures end == InvalidArgument <==>
            p.provider == "" || p.deviceAuthId == "" || p.userCode == "" || p.interval == 0 || p.interval > 900
    ensures end == NotConfigured <==> WellFormed(p) && (p.provider != "oai" || !configured)
    ensures end == InvalidArgument || end == NotConfigured <==> starts == []
    ensures Spaced(starts, p.interval)
    ensures var deadline := if callerDeadline < 900 then callerDeadline else 900;
            && (starts != [] ==>
                  CountBefore(starts, deadline) <= CeilDiv(deadline, p.interval) <= CeilDiv(900, p.interval))
            && |starts| <= CountBefore(starts, deadline) + 1
            && (starts != [] && starts[|starts| - 1] >= deadline ==> end == TimedOut && finish == starts[|starts| - 1])
            && (end == Done <==>
                  && starts != [] && w.reply(|starts| - 1) == Approved && w.took(|starts| - 1) < timeout
                  && starts[|starts| - 1] + w.took(|starts| - 1) < deadline)
    ensures forall i :: 0 <= i < |starts| - 1 ==> w.reply(i) == Pending
  {
    if p.provider == "" || p.deviceAuthId == "" || p.userCode == "" || p.interval == 0 || p.interval > 900 {
      return [], 0, InvalidArgument;
    }
    if p.provider != "oai" || !configured {
      return [], 0, NotConfigured;
    }
    var deadline := if callerDeadline < WINDOW then callerDeadline else WINDOW;
    starts, finish, end := PollLoop(p.interval, deadline, timeout, w);
    ScheduledSpaced(starts, p.interval, w);
    AllButLast(starts, deadline);
    AttemptsInTime(starts, p.interval, deadline);
    CeilDivMonotone(deadline, WINDOW, p.interval);
  }

  lemma CeilDivMonotone(a: nat, b: nat, c: nat)
    requires a <= b && c > 0
    ensures CeilDiv(a, c) <= CeilDiv(b, c)
  {
    var q := CeilDiv(a, c);
    if q > 0 {
      assert c * q <= a + c - 1;
      assert c * (q - 1) == c * q - c < b;
      MultipleBelow(c, b, q - 1);
    }
  }
}
