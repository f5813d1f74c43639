/** The streaming pair: a producer goroutine and the request handler, joined by an unbuffered data
    channel, an error channel with one slot, and a context that ends when the client leaves or the
    handler returns.

    `Next` interleaves the atomic steps of both sides. The producer follows a fixed list of operations
    (`StreamFraming` computes it from the upstream lines); `Recv` is assumed to return.
 */
module StreamPair {
  import opened Wrappers

  datatype Op = Recv | Send(event: string)

  /** What the upstream makes the producer do: operations, then a clean end or an error. */
  datatype Program = Program(ops: seq<Op>, failure: Option<int>)

  datatype Error = FromUpstream(code: int) | FromContext

  datatype Phase = Running | ClosingErr | ClosingData | Gone

  datatype Exit =
    | NoFlusher | Canceled | Complete
    | HttpStatus(err: Error)             // the error became the status of the response
    | ErrorFrame(err: Error)             // the error became a frame inside the stream
    | EventLost(event: string)           // writing an event failed
    | FrameLost(err: Error)              // writing the error frame failed

  datatype Stage =
    | Starting
    | Looping
    | Writing(event: string)
    | Framing(err: Error, headDone: bool)
    | Returned(exit: Exit)

  /** The handler's own variables; `written` is what reached the client as events. */
  datatype Handler = Handler(stage: Stage, dataNil: bool, errNil: bool, started: bool, written: seq<string>)

  datatype State = State(
    openAI: bool,                        // OpenAI clients get the error frame without an event line
    prog: Program,
    phase: Phase,
    pc: nat,                             // operations completed
    slot: Option<Error>,
    errClosed: bool,
    dataClosed: bool,
    clientGone: bool,
    handler: Handler)

  function Events(ops: seq<Op>): seq<string> {
    if ops == [] then []
    else
      var e := Events(ops[..|ops| - 1]);
      var op := ops[|ops| - 1];
      if op.Send? then e + [op.event] else e
  }

  ghost predicate WellFormed(p: Program) {
    forall i :: 0 <= i < |p.ops| && p.ops[i].Send? ==> p.ops[i].event != ""
  }

  // ---- the handler's reactions -----------------------------------------------------------------

  const FRESH_HANDLER := Handler(Starting, false, false, false, [])

  function TakeData(h: Handler, event: string): Handler {
    if event == "" then h else h.(stage := Writing(event))
  }

  function FinishWrite(h: Handler, event: string, ok: bool): Handler {
    if ok then h.(stage := Looping, started := true, written := h.written + [event])
    else h.(stage := Returned(EventLost(event)))
  }

  function TakeError(h: Handler, err: Error, openAI: bool): Handler {
    if h.started then h.(stage := Framing(err, openAI)) else h.(stage := Returned(HttpStatus(err)))
  }

  function FinishFramePart(h: Handler, err: Error, headDone: bool, ok: bool): Handler {
    if !ok then h.(stage := Returned(FrameLost(err)))
    else if headDone then h.(stage := Returned(ErrorFrame(err)))
    else h.(stage := Framing(err, true))
  }

  function Leave(h: Handler, exit: Exit): Handler {
    h.(stage := Returned(exit))
  }

  // ---- interleaving ----------------------------------------------------------------------------

  ghost predicate Init(s: State) {
    && WellFormed(s.prog) && !s.clientGone && s.handler == FRESH_HANDLER && s.pc == 0
    && (|| (s.phase == Running && s.slot == None && !s.errClosed && !s.dataClosed)
        // no route for the request: both channels come back closed, the error already in the slot
        || (s.phase == Gone && s.prog.ops == [] && s.prog.failure.Some? && s.errClosed && s.dataClosed &&
            s.slot == Some(FromUpstream(s.prog.failure.value))))
  }

  predicate ContextDone(s: State) {
    s.clientGone || s.handler.stage.Returned?
  }

  predicate AtRecv(s: State) {
    s.phase == Running && s.pc < |s.prog.ops| && s.prog.ops[s.pc].Recv?
  }

  predicate AtSend(s: State) {
    s.phase == Running && s.pc < |s.prog.ops| && s.prog.ops[s.pc].Send?
  }

  predicate AtEnd(s: State) {
    s.phase == Running && s.pc == |s.prog.ops|
  }

  /** Every place where the producer puts an error into the slot. */
  predicate Raises(s: State, err: Error) {
    || (AtEnd(s) && s.prog.failure.Some? && err == FromUpstream(s.prog.failure.value))
    || (ContextDone(s) && err == FromContext && (AtRecv(s) || (AtEnd(s) && s.prog.failure.Some?)))
  }

  ghost predicate ProducerStep(s: State, t: State) {
    || (AtRecv(s) && t == s.(pc := s.pc + 1))
    || (AtSend(s) && ContextDone(s) && t == s.(phase := ClosingErr))
    || (AtEnd(s) && s.prog.failure.None? && t == s.(phase := ClosingErr))
    || (s.slot.None? && t.slot.Some? && Raises(s, t.slot.value) && t == s.(phase := ClosingErr, slot := t.slot))
    || (s.phase == ClosingErr && t == s.(phase := ClosingData, errClosed := true))
    || (s.phase == ClosingData && t == s.(phase := Gone, dataClosed := true))
  }

  /** The rendezvous on the data channel. */
  ghost predicate HandOver(s: State, t: State) {
    && AtSend(s) && s.handler.stage == Looping && !s.handler.dataNil
    && t == s.(pc := s.pc + 1, handler := TakeData(s.handler, s.prog.ops[s.pc].event))
  }

  /** One step of the handler, to variables `n` with `slot` left in the error channel. */
  ghost predicate HandlerMove(s: State, n: Handler, slot: Option<Error>) {
    var h := s.handler;
    match h.stage
    case Starting => slot == s.slot && (n == Leave(h, NoFlusher) || n == h.(stage := Looping))
    case Looping =>
      if h.dataNil && h.errNil then slot == s.slot && n == Leave(h, Complete)
      else
        || (s.clientGone && slot == s.slot && n == Leave(h, Canceled))
        || (!h.dataNil && s.dataClosed && slot == s.slot && n == h.(dataNil := true))
        || (!h.errNil && s.slot.Some? && slot == None && n == TakeError(h, s.slot.value, s.openAI))
        || (!h.errNil && s.slot.None? && s.errClosed && slot == s.slot && n == h.(errNil := true))
    case Writing(e) => slot == s.slot && (n == FinishWrite(h, e, true) || n == FinishWrite(h, e, false))
    case Framing(err, head) =>
      slot == s.slot && (n == FinishFramePart(h, err, head, true) || n == FinishFramePart(h, err, head, false))
    case Returned(_) => false
  }

  ghost predicate HandlerStep(s: State, t: State) {
    t == s.(handler := t.handler, slot := t.slot) && HandlerMove(s, t.handler, t.slot)
  }

  ghost predicate ClientLeaves(s: State, t: State) {
    !s.clientGone && t == s.(clientGone := true)
  }

  ghost predicate Next(s: State, t: State) {
    ProducerStep(s, t) || HandOver(s, t) || HandlerStep(s, t) || ClientLeaves(s, t)
  }

  ghost predicate StepAt(run: seq<State>, i: nat)
    requires i + 1 < |run|
  {
    Next(run[i], run[i + 1])
  }

  ghost predicate IsRun(run: seq<State>) {
    && |run| > 0 && Init(run[0])
    && forall i :: 0 <= i < |run| - 1 ==> StepAt(run, i)
  }

  // ---- what every step keeps -------------------------------------------------------------------

  /** Events taken from the channel but not, or never, written. */
  function Held(h: Handler): seq<string> {
    match h.stage
    case Writing(e) => [e]
    case Returned(EventLost(e)) => [e]
    case _ => []
  }

  /** The error the handler has taken, if any. */
  function Reported(h: Handler): Option<Error> {
    match h.stage
    case Framing(err, _) => Some(err)
    case Returned(HttpStatus(err)) => Some(err)
    case Returned(ErrorFrame(err)) => Some(err)
    case Returned(FrameLost(err)) => Some(err)
    case _ => None
  }

  /** Where an error can come from. */
  predicate Explained(s: State, err: Error) {
    match err
    case FromUpstream(code) => s.pc == |s.prog.ops| && s.prog.failure == Some(code)
    case FromContext => ContextDone(s)
  }

  ghost predicate Channels(s: State) {
    && s.pc <= |s.prog.ops|
    && (s.phase == Running ==> s.slot == None && Reported(s.handler) == None)
    && (s.errClosed <==> s.phase == ClosingData || s.phase == Gone)
    && (s.dataClosed <==> s.phase == Gone)
    && (s.handler.dataNil ==> s.dataClosed)
    && (s.handler.errNil ==> s.errClosed && s.slot == None)
  }

  ghost predicate Delivery(s: State) {
    && s.pc <= |s.prog.ops|
    && Events(s.prog.ops[..s.pc]) == s.handler.written + Held(s.handler)
    && (s.handler.started <==> s.handler.written != [])
    && (s.handler.stage.Starting? ==> !s.handler.started)
    && (s.handler.stage.Framing? ==> s.handler.started)
    && (s.handler.stage.Returned? ==>
          match s.handler.stage.exit
          case HttpStatus(_) => !s.handler.started
          case ErrorFrame(_) => s.handler.started
          case FrameLost(_) => s.handler.started
          case _ => true)
  }

  ghost predicate Errors(s: State) {
    && (s.slot.Some? ==> Reported(s.handler) == None && Explained(s, s.slot.value))
    && (Reported(s.handler).Some? ==>
          match Reported(s.handler).value
          case FromUpstream(code) => s.pc == |s.prog.ops| && s.prog.failure == Some(code)
          case FromContext => s.clientGone)
    // left alone, the producer stops only at the end of its program, with the error it ends in
    && (s.phase != Running && !ContextDone(s) ==>
          s.pc == |s.prog.ops| && (s.prog.failure.Some? <==> s.slot.Some? || Reported(s.handler).Some?))
    && (s.handler.stage == Returned(Complete) && !s.clientGone ==>
          s.pc == |s.prog.ops| && s.prog.failure == None)
    && (s.handler.stage == Returned(Canceled) ==> s.clientGone)
  }

  ghost predicate Inv(s: State) {
    WellFormed(s.prog) && Channels(s) && Delivery(s) && Errors(s)
  }

  lemma InitInv(s: State)
    requires Init(s)
    ensures Inv(s)
  {
  }

  lemma EventsNext(ops: seq<Op>, k: nat)
    requires k < |ops|
    ensures Events(ops[..k + 1]) == if ops[k].Send? then Events(ops[..k]) + [ops[k].event] else Events(ops[..k])
  {
    assert ops[..k + 1][..k] == ops[..k];
  }

  lemma ProducerInv(s: State, t: State)
    requires Inv(s) && ProducerStep(s, t)
    ensures Inv(t)
  {
    if AtRecv(s) {
      EventsNext(s.prog.ops, s.pc);
    }
  }

  lemma HandOverInv(s: State, t: State)
    requires Inv(s) && HandOver(s, t)
    ensures Inv(t)
  {
    EventsNext(s.prog.ops, s.pc);
  }

  lemma HandlerKeepsChannels(s: State, t: State)
    requires Inv(s) && HandlerStep(s, t)
    ensures Channels(t) && t.prog == s.prog
  {
  }

  lemma HandlerKeepsDelivery(s: State, t: State)
    requires Delivery(s) && HandlerStep(s, t)
    ensures Delivery(t)
  {
    match s.handler.stage
    case Starting =>
    case Looping => LoopKeepsDelivery(s, t);
    case Writing(_) => WriteKeepsDelivery(s, t);
    case Framing(_, _) =>
  }

  lemma LoopKeepsDelivery(s: State, t: State)
    requires Delivery(s) && HandlerStep(s, t) && s.handler.stage.Looping?
    ensures Delivery(t)
  {
  }

  lemma WriteKeepsDelivery(s: State, t: State)
    requires Delivery(s) && HandlerStep(s, t) && s.handler.stage.Writing?
    ensures Delivery(t)
  {
    var h, e := s.handler, s.handler.stage.event;
    assert h.written + [e] + [] == h.written + [e];
  }

  lemma HandlerKeepsErrors(s: State, t: State)
    requires Inv(s) && HandlerStep(s, t)
    ensures Errors(t)
  {
    match s.handler.stage
    case Starting =>
    case Looping =>
    case Writing(e) =>
    case Framing(err, head) =>
  }

  lemma HandlerInv(s: State, t: State)
    requires Inv(s) && HandlerStep(s, t)
    ensures Inv(t)
  {
    HandlerKeepsChannels(s, t);
    HandlerKeepsDelivery(s, t);
    HandlerKeepsErrors(s, t);
  }

  lemma NextInv(s: State, t: State)
    requires Inv(s) && Next(s, t)
    ensures Inv(t)
  {
    if ProducerStep(s, t) {
      ProducerInv(s, t);
    } else if HandOver(s, t) {
      HandOverInv(s, t);
    } else if HandlerStep(s, t) {
      HandlerInv(s, t);
    }
  }

  lemma {:induction false} RunInv(run: seq<State>, i: nat)
    requires IsRun(run) && i < |run|
    ensures Inv(run[i]) && run[i].prog == run[0].prog
  {
    if i == 0 {
      InitInv(run[0]);
    } else {
      RunInv(run, i - 1);
      StepInv(run, i - 1);
    }
  }

  lemma StepInv(run: seq<State>, i: nat)
    requires IsRun(run) && i + 1 < |run| && Inv(run[i])
    ensures Inv(run[i + 1]) && run[i + 1].prog == run[i].prog
  {
    assert StepAt(run, i);
    NextInv(run[i], run[i + 1]);
    NextKeepsProg(run[i], run[i + 1]);
  }

  lemma NextKeepsProg(s: State, t: State)
    requires Next(s, t)
    ensures t.prog == s.prog
  {
  }

  // ---- safety ----------------------------------------------------------------------------------

  lemma {:induction false} EventsPrefix(ops: seq<Op>, k: nat)
    requires k <= |ops|
    ensures Events(ops[..k]) <= Events(ops)
  {
    if k == |ops| {
      assert ops[..k] == ops;
    } else {
      EventsPrefix(ops[..|ops| - 1], k);
      assert ops[..|ops| - 1][..k] == ops[..k];
    }
  }

  /** What the client has received is always a prefix of what the producer has to say; a response that
      completes with the client still there has all of it, and then there was no error to report. */
  lemma WrittenIsPrefix(run: seq<State>, i: nat)
    requires IsRun(run) && i < |run|
    ensures var s := run[i];
            && s.handler.written <= Events(s.prog.ops)
            && (s.handler.stage == Returned(Complete) && !s.clientGone ==>
                  s.handler.written == Events(s.prog.ops) && s.prog.failure == None)
  {
    RunInv(run, i);
    var s := run[i];
    EventsPrefix(s.prog.ops, s.pc);
    if s.pc == |s.prog.ops| {
      assert s.prog.ops[..s.pc] == s.prog.ops;
    }
  }

  /** An error is reported only after every event produced before it has been written, as a status
      exactly when nothing was written; with the client still there it is the upstream's error. */
  lemma ErrorReport(run: seq<State>, i: nat)
    requires IsRun(run) && i < |run| && Reported(run[i].handler).Some?
    ensures var s := run[i];
            var err := Reported(s.handler).value;
            && s.pc <= |s.prog.ops| && s.handler.written == Events(s.prog.ops[..s.pc])
            && (s.handler.stage == Returned(HttpStatus(err)) <==> s.handler.written == [])
            && (!s.clientGone ==> s.prog.failure.Some? && err == FromUpstream(s.prog.failure.value) &&
                                  s.handler.written == Events(s.prog.ops))
  {
    RunInv(run, i);
    var s := run[i];
    if s.pc == |s.prog.ops| {
      assert s.prog.ops[..s.pc] == s.prog.ops;
    }
  }

  /** While the client stays and accepts what is written, an upstream error is never lost, and nothing
      but an upstream error is reported. */
  lemma ErrorNeverLost(run: seq<State>, i: nat)
    requires IsRun(run) && i < |run| && run[i].handler.stage.Returned? && !run[i].clientGone
    requires !run[i].handler.stage.exit.NoFlusher? && !run[i].handler.stage.exit.EventLost?
    ensures run[i].prog.failure.Some? <==> Reported(run[i].handler).Some?
  {
    RunInv(run, i);
  }

  /** The handler takes at most one error: once it has one, no later step changes it, and none is left. */
  lemma AtMostOneError(run: seq<State>, i: nat, j: nat)
    requires IsRun(run) && i <= j < |run| && Reported(run[i].handler).Some?
    ensures Reported(run[j].handler) == Reported(run[i].handler)
    ensures run[j].slot == None
  {
    ReportKept(run, i, j);
    RunInv(run, j);
    SlotEmptied(run[j]);
  }

  lemma SlotEmptied(s: State)
    requires Errors(s) && Reported(s.handler).Some?
    ensures s.slot == None
  {
  }

  lemma {:induction false} ReportKept(run: seq<State>, i: nat, j: nat)
    requires IsRun(run) && i <= j < |run| && Reported(run[i].handler).Some?
    ensures Reported(run[j].handler) == Reported(run[i].handler)
    decreases j
  {
    if j > i {
      ReportKept(run, i, j - 1);
      assert StepAt(run, j - 1);
      ReportStays(run[j - 1], run[j]);
    }
  }

  lemma ReportStays(s: State, t: State)
    requires Next(s, t) && Reported(s.handler).Some?
    ensures Reported(t.handler) == Reported(s.handler)
  {
    if HandlerStep(s, t) {
      assert s.handler.stage.Framing?;
    }
  }

  // ---- progress --------------------------------------------------------------------------------

  /** Putting an error into the one-slot channel never blocks. */
  lemma SlotFreeWhenRaising(s: State, err: Error)
    requires Inv(s) && Raises(s, err)
    ensures s.slot == None
  {
  }

  function ProducerWork(s: State): nat {
    (if s.pc < |s.prog.ops| then 2 * (|s.prog.ops| - s.pc) else 0) +
    match s.phase case Running => 3 case ClosingErr => 2 case ClosingData => 1 case Gone => 0
  }

  function HandlerWork(s: State): nat {
    (if s.handler.dataNil then 0 else 1) + (if s.handler.errNil then 0 else 1) +
    match s.handler.stage
    case Starting => 6
    case Looping => 4
    case Writing(_) => 5
    case Framing(_, head) => if head then 1 else 2
    case Returned(_) => 0
  }

  function Work(s: State): nat {
    ProducerWork(s) + HandlerWork(s) + if s.clientGone then 0 else 1
  }

  lemma HandlerWorkDecreases(s: State, t: State)
    requires HandlerStep(s, t)
    ensures HandlerWork(t) < HandlerWork(s)
    ensures t.prog == s.prog && t.pc == s.pc && t.phase == s.phase && t.clientGone == s.clientGone
  {
    match s.handler.stage
    case Starting =>
    case Looping =>
    case Writing(e) =>
    case Framing(err, head) =>
  }

  lemma WorkDecreases(s: State, t: State)
    requires Inv(s) && Next(s, t)
    ensures Work(t) < Work(s)
  {
    if ProducerStep(s, t) {
      ProducerWorkDecreases(s, t);
    } else if HandOver(s, t) {
      assert ProducerWork(t) == ProducerWork(s) - 2;
      assert HandlerWork(t) <= HandlerWork(s) + 1;
    } else if HandlerStep(s, t) {
      HandlerWorkDecreases(s, t);
    }
  }

  lemma ProducerWorkDecreases(s: State, t: State)
    requires ProducerStep(s, t)
    ensures ProducerWork(t) < ProducerWork(s)
    ensures t.handler == s.handler && t.clientGone == s.clientGone && t.prog == s.prog
  {
  }

  predicate Finished(s: State) {
    s.phase == Gone && s.handler.stage.Returned?
  }

  /** No deadlock: short of the end some step other than the client leaving can be taken. */
  lemma CanMove(s: State) returns (t: State)
    requires Inv(s) && !Finished(s)
    ensures ProducerStep(s, t) || HandOver(s, t) || HandlerStep(s, t)
  {
    var h := s.handler;
    if !h.stage.Returned? && !(h.stage.Looping? && !(h.dataNil && h.errNil)) {
      t := match h.stage
        case Starting => s.(handler := h.(stage := Looping))
        case Looping => s.(handler := Leave(h, Complete))
        case Writing(e) => s.(handler := FinishWrite(h, e, true))
        case Framing(err, head) => s.(handler := FinishFramePart(h, err, head, true));
    } else if s.phase == Gone {
      t := if !h.dataNil then s.(handler := h.(dataNil := true))
           else if s.slot.Some? then s.(slot := None, handler := TakeError(h, s.slot.value, s.openAI))
           else s.(handler := h.(errNil := true));
    } else if s.phase == Running && AtSend(s) && h.stage.Looping? {
      t := s.(pc := s.pc + 1, handler := TakeData(h, s.prog.ops[s.pc].event));
    } else {
      t := ProducerAlone(s);
    }
  }

  /** A producer that is not waiting for the handler can step on its own, and so can every producer once
      the handler has returned. */
  lemma ProducerAlone(s: State) returns (t: State)
    requires Inv(s) && s.phase != Gone
    requires AtSend(s) ==> ContextDone(s)
    ensures ProducerStep(s, t)
  {
    if s.phase == ClosingErr {
      t := s.(phase := ClosingData, errClosed := true);
    } else if s.phase == ClosingData {
      t := s.(phase := Gone, dataClosed := true);
    } else if AtRecv(s) {
      t := s.(pc := s.pc + 1);
    } else if AtSend(s) {
      t := s.(phase := ClosingErr);
    } else if s.prog.failure.None? {
      t := s.(phase := ClosingErr);
    } else {
      t := s.(phase := ClosingErr, slot := Some(FromUpstream(s.prog.failure.value)));
    }
  }

  /** Every run is finite, within a bound known at its start. */
  lemma RunsAreBounded(run: seq<State>, i: nat)
    requires IsRun(run) && i < |run|
    ensures i <= 2 * |run[0].prog.ops| + 12
  {
    WorkSpent(run, i);
  }

  lemma {:induction false} WorkSpent(run: seq<State>, i: nat)
    requires IsRun(run) && i < |run|
    ensures Work(run[i]) + i <= Work(run[0])
  {
    if i > 0 {
      WorkSpent(run, i - 1);
      RunInv(run, i - 1);
      assert StepAt(run, i - 1);
      WorkDecreases(run[i - 1], run[i]);
    }
  }

  /** Neither side can take a step. */
  ghost predicate Stuck(s: State) {
    forall t :: !ProducerStep(s, t) && !HandOver(s, t) && !HandlerStep(s, t)
  }

  /** How a response ends that nobody has cut short. */
  function Ending(p: Program): Exit {
    match p.failure
    case None => Complete
    case Some(code) => if Events(p.ops) == [] then HttpStatus(FromUpstream(code)) else ErrorFrame(FromUpstream(code))
  }

  predicate Refused(stage: Stage) {
    stage.Returned? && (stage.exit.NoFlusher? || stage.exit.EventLost? || stage.exit.FrameLost?)
  }

  /** A run that has come to its end, with the client present and no write refused, has written all events,
      and has reported the upstream error if there was one, after them. */
  lemma UncutRunEnds(run: seq<State>)
    requires IsRun(run) && Stuck(run[|run| - 1])
    requires !run[|run| - 1].clientGone && !Refused(run[|run| - 1].handler.stage)
    ensures var s := run[|run| - 1];
            && s.phase == Gone && s.handler.stage == Returned(Ending(s.prog))
            && s.handler.written == Events(s.prog.ops)
  {
    var i := |run| - 1;
    var s := run[i];
    RunInv(run, i);
    if !Finished(s) {
      var t := CanMove(s);
    }
    WrittenIsPrefix(run, i);
    if Reported(s.handler).Some? {
      ErrorReport(run, i);
    }
  }

  /** No leak: once the handler has returned, for whatever reason, the producer can always go on by
      itself until it is gone, delivers nothing more, and needs boundedly many steps for it. */
  lemma {:induction false} ReturnDrainsProducer(run: seq<State>, i: nat, j: nat)
    requires IsRun(run) && i <= j < |run| && run[i].handler.stage.Returned?
    ensures run[j].handler == run[i].handler
    ensures ProducerWork(run[j]) + (j - i) <= ProducerWork(run[i]) + 1
    ensures run[j].phase != Gone ==> exists t :: ProducerStep(run[j], t)
    decreases j
  {
    RunInv(run, j);
    DrainBound(run, i, j);
    if run[j].phase != Gone {
      var t := ProducerAlone(run[j]);
    }
  }

  lemma {:induction false} DrainBound(run: seq<State>, i: nat, j: nat)
    requires IsRun(run) && i <= j < |run| && run[i].handler.stage.Returned?
    ensures run[j].handler == run[i].handler
    ensures ProducerWork(run[j]) + (j - i) + (if run[j].clientGone then 0 else 1) <= ProducerWork(run[i]) + 1
    decreases j
  {
    if j > i {
      DrainBound(run, i, j - 1);
      assert StepAt(run, j - 1);
      StepAfterReturn(run[j - 1], run[j]);
    }
  }

  lemma StepAfterReturn(s: State, t: State)
    requires Next(s, t) && s.handler.stage.Returned?
    ensures t.handler == s.handler
    ensures ProducerWork(t) + (if t.clientGone then 0 else 1) < ProducerWork(s) + (if s.clientGone then 0 else 1)
  {
    if ProducerStep(s, t) {
      ProducerWorkDecreases(s, t);
    }
  }
}
