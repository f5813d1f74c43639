/** What the producer sends for given upstream lines, and what the client can read out of it. */
module StreamFraming {
  import opened Wrappers
  import opened EventLines
  import opened EventFrames
  import opened StreamPair

  datatype Format = OpenAI | OpenAIResponse | Claude | Gemini | Codex | Antigravity

  /** `translate` is the protocol converter; its hidden state is the history of contents it was given. */
  datatype Route = Route(client: Format, upstream: Format, translate: seq<string> -> seq<string>)

  const DONE := "[DONE]"

  predicate EndsBlank(s: string) {
    |s| >= 2 && s[|s| - 2] == '\n' && s[|s| - 1] == '\n'
  }

  function TrimLineEnds(s: string): string {
    if s != "" && (s[|s| - 1] == '\r' || s[|s| - 1] == '\n') then TrimLineEnds(s[..|s| - 1]) else s
  }

  function FrameEvent(client: Format, event: string): string {
    if event == "" then ""
    else if client.OpenAI? then "data: " + event + "\n\n"
    else if EndsBlank(event) then event
    else TrimLineEnds(event) + "\n\n"
  }

  function Framed(client: Format, events: seq<string>): seq<string> {
    seq(|events|, i requires 0 <= i < |events| => FrameEvent(client, events[i]))
  }

  /** Frames converted events in place; empty ones stay empty. */
  method FrameEvents(client: Format, events: array<string>)
    modifies events
    ensures events[..] == Framed(client, old(events[..]))
  {
    for i := 0 to events.Length
      invariant forall k :: 0 <= k < i ==> events[k] == FrameEvent(client, old(events[k]))
      invariant forall k :: i <= k < events.Length ==> events[k] == old(events[k])
    {
      var event := events[i];
      if |event| == 0 {
        continue;
      }
      if client == OpenAI {
        events[i] := "data: " + event + "\n\n";
      } else if !EndsBlank(event) {
        events[i] := TrimLineEnds(event) + "\n\n";
      }
    }
  }

  /** Every event that goes out is closed by a blank line, so the client dispatches it at once; framing
      a framed event again changes nothing unless it is wrapped for OpenAI. */
  lemma FramedEventsDispatch(client: Format, event: string)
    requires event != ""
    ensures EndsBlank(FrameEvent(client, event))
    ensures !client.OpenAI? ==> FrameEvent(client, FrameEvent(client, event)) == FrameEvent(client, event)
    ensures !client.OpenAI? ==> TrimLineEnds(FrameEvent(client, event)) == TrimLineEnds(event)
  {
    if !client.OpenAI? && !EndsBlank(event) {
      TrimmedEnds(event);
      var t := TrimLineEnds(event);
      assert (t + "\n\n")[..|t| + 1] == t + "\n";
      assert (t + "\n")[..|t|] == t;
      assert TrimLineEnds(t + "\n") == TrimLineEnds(t);
    }
  }

  lemma {:induction false} TrimmedEnds(s: string)
    ensures TrimLineEnds(TrimLineEnds(s)) == TrimLineEnds(s)
  {
    if s != "" && (s[|s| - 1] == '\r' || s[|s| - 1] == '\n') {
      TrimmedEnds(s[..|s| - 1]);
    }
  }

  // ---- the operations of the producer ----------------------------------------------------------

  function NonEmpty(s: seq<string>): seq<string> {
    if s == [] then []
    else
      var p := NonEmpty(s[..|s| - 1]);
      if s[|s| - 1] == "" then p else p + [s[|s| - 1]]
  }

  function Sends(events: seq<string>): seq<Op> {
    if events == [] then []
    else
      var p := Sends(events[..|events| - 1]);
      if events[|events| - 1] == "" then p else p + [Send(events[|events| - 1])]
  }

  /** What one received line makes the producer send; `seen` are the non-blank lines before it. */
  function Chunk(r: Route, seen: seq<string>, line: string): seq<string> {
    if r.client == r.upstream then [line + "\n"]
    else if line == "" then []
    else Framed(r.client, r.translate(seen + [line]))
  }

  function LineOps(r: Route, lines: seq<string>): seq<Op> {
    if lines == [] then []
    else
      var p := lines[..|lines| - 1];
      LineOps(r, p) + [Recv] + Sends(Chunk(r, NonEmpty(p), lines[|lines| - 1]))
  }

  function Closing(r: Route): seq<Op> {
    if r.client == OpenAI && r.upstream == Codex then [Recv, Send("data: [DONE]\n\n")] else [Recv]
  }

  /** The producer's program for a stream of lines that ends cleanly, or in an error. */
  function ProgramOf(r: Route, lines: seq<string>, failure: Option<int>): Program {
    Program(LineOps(r, lines) + (if failure.None? then Closing(r) else []), failure)
  }

  /** The receive loop. */
  method Produce(r: Route, lines: seq<string>, failure: Option<int>) returns (ops: seq<Op>)
    ensures ops == ProgramOf(r, lines, failure).ops
  {
    ops := [];
    var seen: seq<string> := [];
    for i := 0 to |lines|
      invariant ops == LineOps(r, lines[..i])
      invariant seen == NonEmpty(lines[..i])
    {
      assert lines[..i + 1][..i] == lines[..i];
      var sends := HandleChunk(r, seen, lines[i]);
      ops := ops + [Recv] + sends;
      if lines[i] != "" {
        seen := seen + [lines[i]];
      }
    }
    assert lines[..|lines|] == lines;
    if failure.None? {
      ops := ops + [Recv];
      if r.client == OpenAI && r.upstream == Codex {
        ops := ops + [Send("data: [DONE]\n\n")];
      }
    }
  }

  /** One chunk: its events are framed in place and sent one by one. */
  method HandleChunk(r: Route, seen: seq<string>, content: string) returns (sends: seq<Op>)
    ensures sends == Sends(Chunk(r, seen, content))
  {
    sends := [];
    var events: array<string>;
    if r.client == r.upstream {
      events := new string[1](k => content + "\n");
    } else {
      if content == "" {
        return;
      }
      var converted := r.translate(seen + [content]);
      events := new string[|converted|](k requires 0 <= k < |converted| => converted[k]);
      assert events[..] == converted;
      FrameEvents(r.client, events);
    }
    assert events[..] == Chunk(r, seen, content);
    for j := 0 to events.Length
      invariant sends == Sends(events[..j])
    {
      assert events[..j + 1][..j] == events[..j];
      if |events[j]| == 0 {
        continue;
      }
      sends := sends + [Send(events[j])];
    }
    assert events[..events.Length] == events[..];
  }

  // ---- what comes out --------------------------------------------------------------------------

  lemma {:induction false} EventsAppend(a: seq<Op>, b: seq<Op>)
    ensures Events(a + b) == Events(a) + Events(b)
  {
    if b == [] {
      assert a + b == a;
    } else {
      var c := a + b;
      assert c[..|c| - 1] == a + b[..|b| - 1];
      EventsAppend(a, b[..|b| - 1]);
    }
  }

  lemma {:induction false} EventsOfSends(events: seq<string>)
    ensures Events(Sends(events)) == NonEmpty(events)
    ensures forall i :: 0 <= i < |Sends(events)| ==> Sends(events)[i].Send? && Sends(events)[i].event != ""
  {
    if events == [] {
    } else {
      EventsOfSends(events[..|events| - 1]);
    }
  }

  lemma {:induction false} LineOpsSendSomething(r: Route, lines: seq<string>)
    ensures forall i :: 0 <= i < |LineOps(r, lines)| && LineOps(r, lines)[i].Send? ==> LineOps(r, lines)[i].event != ""
  {
    if lines == [] {
    } else {
      var p := lines[..|lines| - 1];
      LineOpsSendSomething(r, p);
      EventsOfSends(Chunk(r, NonEmpty(p), lines[|lines| - 1]));
    }
  }

  lemma ProgramWellFormed(r: Route, lines: seq<string>, failure: Option<int>)
    ensures WellFormed(ProgramOf(r, lines, failure))
  {
    LineOpsSendSomething(r, lines);
  }

  lemma EventsOfLine(r: Route, p: seq<string>, line: string)
    ensures Events(LineOps(r, p + [line])) == Events(LineOps(r, p)) + NonEmpty(Chunk(r, NonEmpty(p), line))
  {
    var l := p + [line];
    assert l[..|l| - 1] == p;
    var sends := Sends(Chunk(r, NonEmpty(p), line));
    EventsAppend(LineOps(r, p) + [Recv], sends);
    EventsAppend(LineOps(r, p), [Recv]);
    assert [Recv][..0] == [];
    EventsOfSends(Chunk(r, NonEmpty(p), line));
  }

  lemma {:induction false} PassThroughEvents(r: Route, lines: seq<string>)
    requires r.client == r.upstream
    ensures Events(LineOps(r, lines)) == Restored(lines)
  {
    if lines == [] {
    } else {
      var p := lines[..|lines| - 1];
      var x := lines[|lines| - 1];
      PassThroughEvents(r, p);
      EventsOfLine(r, p, x);
      assert lines == p + [x];
      var one := [x + "\n"];
      assert one[..0] == [];
      assert NonEmpty(one) == one;
      assert Restored(lines) == Restored(p) + one;
    }
  }

  lemma EventsOfProgram(r: Route, lines: seq<string>)
    ensures Events(ProgramOf(r, lines, None).ops) ==
            Events(LineOps(r, lines)) +
            (if r.client == OpenAI && r.upstream == Codex then [Frame(DONE)] else [])
  {
    EventsAppend(LineOps(r, lines), Closing(r));
    EventsOfClosing(r);
  }

  lemma EventsOfClosing(r: Route)
    ensures Events(Closing(r)) == if r.client == OpenAI && r.upstream == Codex then [Frame(DONE)] else []
  {
    var one := [Recv];
    assert one[..0] == [];
    assert Events(one) == [];
    assert Frame(DONE) == "data: [DONE]\n\n";
    var two := [Recv, Send("data: [DONE]\n\n")];
    assert two[..1] == one;
  }

  /** The converter's events for the lines so far, the empty ones left out. */
  function Converted(r: Route, lines: seq<string>): seq<string> {
    if lines == [] then []
    else
      var p := lines[..|lines| - 1];
      var x := lines[|lines| - 1];
      Converted(r, p) + LineEvents(r, NonEmpty(p), x)
  }

  function LineEvents(r: Route, seen: seq<string>, x: string): seq<string> {
    if x == "" then [] else NonEmpty(r.translate(seen + [x]))
  }

  lemma FramedOne(client: Format, event: string)
    ensures FrameEvent(client, event) == "" <==> event == ""
  {
  }

  lemma {:induction false} FramedNonEmpty(client: Format, events: seq<string>)
    ensures NonEmpty(Framed(client, events)) == Framed(client, NonEmpty(events))
  {
    if events == [] {
    } else {
      var before, x := events[..|events| - 1], events[|events| - 1];
      FramedNonEmpty(client, before);
      FramedOne(client, x);
      FramedSnoc(client, before, x);
      FramedSnoc(client, NonEmpty(before), x);
      SplitLast(events);
      NonEmptySnoc(before, x);
      NonEmptySnoc(Framed(client, before), FrameEvent(client, x));
    }
  }

  lemma FramedSnoc(client: Format, events: seq<string>, x: string)
    ensures Framed(client, events + [x]) == Framed(client, events) + [FrameEvent(client, x)]
  {
  }

  lemma NonEmptySnoc(s: seq<string>, x: string)
    ensures NonEmpty(s + [x]) == if x == "" then NonEmpty(s) else NonEmpty(s) + [x]
  {
    assert (s + [x])[..|s|] == s;
  }

  /** Leaving out the empty ones: nothing else goes, and the order stays. */
  lemma {:induction false} NonEmptyExactly(s: seq<string>)
    ensures "" !in NonEmpty(s)
    ensures "" !in s ==> NonEmpty(s) == s
    ensures forall x :: x != "" ==> multiset(NonEmpty(s))[x] == multiset(s)[x]
  {
    if s == [] {
    } else {
      var before, x := s[..|s| - 1], s[|s| - 1];
      NonEmptyExactly(before);
      SplitLast(s);
      NonEmptySnoc(before, x);
      assert multiset(s) == multiset(before) + multiset{x};
      assert x in s;
      assert multiset(NonEmpty(before) + [x]) == multiset(NonEmpty(before)) + multiset{x};
    }
  }

  lemma ConvertedSnoc(r: Route, p: seq<string>, x: string)
    ensures Converted(r, p + [x]) == Converted(r, p) + LineEvents(r, NonEmpty(p), x)
  {
    var l := p + [x];
    assert l[..|l| - 1] == p;
  }

  lemma ConvertedStep(r: Route, p: seq<string>, x: string)
    requires r.client != r.upstream
    requires Events(LineOps(r, p)) == Framed(r.client, Converted(r, p))
    ensures Events(LineOps(r, p + [x])) == Framed(r.client, Converted(r, p + [x]))
  {
    EventsOfLine(r, p, x);
    ConvertedLine(r, NonEmpty(p), x);
    ConvertedSnoc(r, p, x);
    FramedAppend(r.client, Converted(r, p), LineEvents(r, NonEmpty(p), x));
  }

  lemma {:induction false} ConvertedEvents(r: Route, lines: seq<string>)
    requires r.client != r.upstream
    ensures Events(LineOps(r, lines)) == Framed(r.client, Converted(r, lines))
  {
    if lines != [] {
      var p := lines[..|lines| - 1];
      ConvertedEvents(r, p);
      SplitLast(lines);
      ConvertedStep(r, p, lines[|lines| - 1]);
    }
  }

  lemma ConvertedLine(r: Route, seen: seq<string>, x: string)
    requires r.client != r.upstream
    ensures NonEmpty(Chunk(r, seen, x)) == Framed(r.client, LineEvents(r, seen, x))
  {
    if x != "" {
      FramedNonEmpty(r.client, r.translate(seen + [x]));
    }
  }

  lemma FramedAppend(client: Format, a: seq<string>, b: seq<string>)
    ensures Framed(client, a + b) == Framed(client, a) + Framed(client, b)
  {
  }

  lemma {:induction false} ConvertedNonEmpty(r: Route, lines: seq<string>)
    ensures "" !in Converted(r, lines)
  {
    if lines != [] {
      var p, x := lines[..|lines| - 1], lines[|lines| - 1];
      ConvertedNonEmpty(r, p);
      if x != "" {
        NonEmptyExactly(r.translate(NonEmpty(p) + [x]));
      }
    }
  }

  /** The non-empty results of the converter for each non-blank line, given that line and all before it. */
  function Results(r: Route, contents: seq<string>): seq<string> {
    if contents == [] then []
    else Results(r, contents[..|contents| - 1]) + NonEmpty(r.translate(contents))
  }

  /** Blank lines are kept from the converter; it sees every other line once, in order. */
  lemma {:induction false} ConvertedSeesContents(r: Route, lines: seq<string>)
    ensures Converted(r, lines) == Results(r, NonEmpty(lines))
  {
    if lines != [] {
      var p, x := lines[..|lines| - 1], lines[|lines| - 1];
      ConvertedSeesContents(r, p);
      SplitLast(lines);
      NonEmptySnoc(p, x);
      var contents := NonEmpty(p) + [x];
      assert contents[..|contents| - 1] == NonEmpty(p);
    }
  }

  // ---- the select loop -------------------------------------------------------------------------

  /** What the handler's select sees, in the order it sees it. */
  datatype Signal =
    | Left
    | Event(event: string, writeOk: bool)
    | DataClosed
    | Failed(err: Error, headOk: bool, bodyOk: bool)
    | ErrClosed

  function React(h: Handler, sig: Signal, openAI: bool): Handler {
    match sig
    case Left => Leave(h, Canceled)
    case Event(e, ok) => if e == "" then h else FinishWrite(TakeData(h, e), e, ok)
    case DataClosed => h.(dataNil := true)
    case ErrClosed => h.(errNil := true)
    case Failed(err, headOk, bodyOk) =>
      var taken := TakeError(h, err, openAI);
      if !taken.stage.Framing? then taken
      else
        var head := if openAI then taken else FinishFramePart(taken, err, false, headOk);
        if head.stage.Framing? then FinishFramePart(head, err, true, bodyOk) else head
  }

  /** The handler after a list of signals; it stops looking at them once it has returned. */
  function Reacted(h: Handler, sigs: seq<Signal>, openAI: bool): Handler
    decreases |sigs|
  {
    if h.stage.Returned? then h
    else if h.dataNil && h.errNil then Leave(h, Complete)
    else if sigs == [] then h
    else Reacted(React(h, sigs[0], openAI), sigs[1..], openAI)
  }

  /** The handler's loop with its own variables; the signals run out only if the run is cut short. */
  method Relay(sigs: seq<Signal>, openAI: bool) returns (exit: Option<Exit>, written: seq<string>)
    ensures var h := Reacted(LOOP_START, sigs, openAI);
            && (exit.Some? <==> h.stage.Returned?)
            && (exit.Some? ==> h.stage == Returned(exit.value))
            && written == h.written
  {
    var started, dataNil, errNil := false, false, false;
    written := [];
    var k := 0;
    ghost var all := Reacted(LOOP_START, sigs, openAI);
    while !dataNil || !errNil
      invariant k <= |sigs|
      invariant all == Reacted(Handler(Looping, dataNil, errNil, started, written), sigs[k..], openAI)
      decreases |sigs| - k
    {
      if k == |sigs| {
        return None, written;
      }
      var sig := sigs[k];
      assert sigs[k..][0] == sig && sigs[k..][1..] == sigs[k + 1..];
      k := k + 1;
      match sig {
        case Left => return Some(Canceled), written;
        case DataClosed => dataNil := true;
        case ErrClosed => errNil := true;
        case Event(data, writeOk) =>
          if |data| == 0 {
            continue;
          }
          if !writeOk {
            return Some(EventLost(data)), written;
          }
          written := written + [data];
          started := true;
        case Failed(err, headOk, bodyOk) =>
          if !started {
            return Some(HttpStatus(err)), written;
          }
          if !openAI && !headOk {
            return Some(FrameLost(err)), written;
          }
          if !bodyOk {
            return Some(FrameLost(err)), written;
          }
          return Some(ErrorFrame(err)), written;
      }
    }
    exit := Some(Complete);
  }

  /** The loop's head: with both channels closed it is over. */
  function AtHead(h: Handler): Handler {
    if !h.stage.Returned? && h.dataNil && h.errNil then Leave(h, Complete) else h
  }

  lemma {:induction false} ReactedSnoc(h: Handler, sigs: seq<Signal>, sig: Signal, openAI: bool)
    ensures var r := Reacted(h, sigs, openAI);
            Reacted(h, sigs + [sig], openAI) == if r.stage.Returned? then r else AtHead(React(r, sig, openAI))
    decreases |sigs|
  {
    if h.stage.Returned? || (h.dataNil && h.errNil) {
    } else if sigs == [] {
      assert ([] + [sig])[1..] == [];
      assert Reacted(React(h, sig, openAI), [], openAI) == AtHead(React(h, sig, openAI));
    } else {
      assert (sigs + [sig])[1..] == sigs[1..] + [sig];
      ReactedSnoc(React(h, sigs[0], openAI), sigs[1..], sig, openAI);
    }
  }

  /** The handler between two selects: what it is doing with its last signal is not counted yet. */
  function Settled(h: Handler): Handler {
    if h.stage.Writing? || h.stage.Framing? then h.(stage := Looping) else AtHead(h)
  }

  const LOOP_START := FRESH_HANDLER.(stage := Looping)

  ghost predicate Accounts(sigs: seq<Signal>, h: Handler, openAI: bool) {
    && Reacted(LOOP_START, sigs, openAI) == Settled(h)
    && (h.stage.Writing? ==> !h.dataNil && h.stage.event != "")
    && (h.stage.Framing? ==> !h.errNil && h.started && (openAI ==> h.stage.headDone))
  }

  ghost predicate Explains(sigs: seq<Signal>, s: State) {
    && (s.handler.stage.Starting? ==> s.handler == FRESH_HANDLER && sigs == [])
    && (s.handler.stage.Starting? || s.handler.stage == Returned(NoFlusher) || Accounts(sigs, s.handler, s.openAI))
  }

  /** The same signals, and at most `n` after them. */
  predicate Extends(sigs: seq<Signal>, more: seq<Signal>, n: nat) {
    sigs <= more && |more| <= |sigs| + n
  }

  lemma LoopStepExplained(sigs: seq<Signal>, s: State, n: Handler, slot: Option<Error>) returns (more: seq<Signal>)
    requires Accounts(sigs, s.handler, s.openAI) && s.handler.stage == Looping && HandlerMove(s, n, slot)
    ensures Accounts(more, n, s.openAI) && !n.stage.Starting? && Extends(sigs, more, 1)
  {
    var h := s.handler;
    if h.dataNil && h.errNil {
      more := sigs;
    } else if s.clientGone && n == Leave(h, Canceled) {
      ReactedSnoc(LOOP_START, sigs, Left, s.openAI);
      more := sigs + [Left];
    } else if !h.dataNil && n == h.(dataNil := true) {
      ReactedSnoc(LOOP_START, sigs, DataClosed, s.openAI);
      more := sigs + [DataClosed];
    } else if !h.errNil && s.slot.None? {
      ReactedSnoc(LOOP_START, sigs, ErrClosed, s.openAI);
      more := sigs + [ErrClosed];
    } else if h.started {
      more := sigs;
    } else {
      var sig := Failed(s.slot.value, true, true);
      ReactedSnoc(LOOP_START, sigs, sig, s.openAI);
      more := sigs + [sig];
    }
  }

  lemma WriteStepExplained(sigs: seq<Signal>, s: State, n: Handler, slot: Option<Error>) returns (more: seq<Signal>)
    requires Accounts(sigs, s.handler, s.openAI) && HandlerMove(s, n, slot)
    requires s.handler.stage.Writing? || s.handler.stage.Framing?
    ensures Accounts(more, n, s.openAI) && !n.stage.Starting? && Extends(sigs, more, 1)
  {
    var h := s.handler;
    if h.stage.Writing? {
      var sig := Event(h.stage.event, n == FinishWrite(h, h.stage.event, true));
      ReactedSnoc(LOOP_START, sigs, sig, s.openAI);
      more := sigs + [sig];
    } else {
      var err, head := h.stage.err, h.stage.headDone;
      var ok := n == FinishFramePart(h, err, head, true);
      if ok && !head {
        more := sigs;
      } else {
        var sig := if head then Failed(err, true, ok) else Failed(err, false, true);
        ReactedSnoc(LOOP_START, sigs, sig, s.openAI);
        more := sigs + [sig];
      }
    }
  }

  lemma HandOverExplained(sigs: seq<Signal>, s: State, t: State)
    requires WellFormed(s.prog) && Explains(sigs, s) && HandOver(s, t)
    ensures Explains(sigs, t)
  {
  }

  lemma HandlerStepExplained(sigs: seq<Signal>, s: State, t: State) returns (more: seq<Signal>)
    requires Explains(sigs, s) && HandlerStep(s, t)
    ensures Explains(more, t) && Extends(sigs, more, 1)
  {
    match s.handler.stage
    case Starting => more := sigs;
    case Looping => more := LoopStepExplained(sigs, s, t.handler, t.slot);
    case Writing(_) => more := WriteStepExplained(sigs, s, t.handler, t.slot);
    case Framing(_, _) => more := WriteStepExplained(sigs, s, t.handler, t.slot);
  }

  /** Every step of the handler is one more signal, or the end of its reaction to the last one. */
  lemma StepExplained(sigs: seq<Signal>, s: State, t: State) returns (more: seq<Signal>)
    requires WellFormed(s.prog) && Explains(sigs, s) && Next(s, t)
    ensures Explains(more, t) && Extends(sigs, more, 1)
  {
    more := sigs;
    if HandOver(s, t) {
      HandOverExplained(sigs, s, t);
    } else if HandlerStep(s, t) {
      more := HandlerStepExplained(sigs, s, t);
    }
  }

  /** The handler of the pair is the select loop: along a run there is one growing list of signals, at most
      one more at every step, and in every state the handler stands where `Relay` stands after those so far. */
  lemma {:induction false} HandlerIsRelay(run: seq<State>, i: nat) returns (trace: seq<seq<Signal>>)
    requires IsRun(run) && i < |run|
    ensures |trace| == i + 1 && trace[0] == []
    ensures forall k :: 0 <= k <= i ==> Explains(trace[k], run[k])
    ensures forall j, k :: 0 <= j <= k <= i ==> Extends(trace[j], trace[k], k - j)
  {
    if i == 0 {
      trace := [[]];
    } else {
      var before := HandlerIsRelay(run, i - 1);
      RunInv(run, i - 1);
      assert StepAt(run, i - 1);
      var more := StepExplained(before[i - 1], run[i - 1], run[i]);
      trace := before + [more];
      forall j | 0 <= j < i ensures Extends(trace[j], more, i - j) {
        assert Extends(before[j], before[i - 1], i - 1 - j);
      }
    }
  }
}
