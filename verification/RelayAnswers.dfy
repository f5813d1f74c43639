/** How the select loop ends and what it has written by then, told from the signals it has seen. */
module RelayAnswers {
  import opened Wrappers
  import opened EventLines
  import opened StreamPair
  import opened StreamFraming

  /** A signal after which the loop goes on as long as the other channel is open. */
  predicate Passing(sig: Signal) {
    match sig
    case Left => false
    case Event(e, ok) => e == "" || ok
    case DataClosed => true
    case ErrClosed => true
    case Failed(_, _, _) => false
  }

  ghost predicate GoingOn(sigs: seq<Signal>) {
    && (forall i :: 0 <= i < |sigs| ==> Passing(sigs[i]))
    && !(DataClosed in sigs && ErrClosed in sigs)
  }

  /** The events among the signals. */
  function Writes(sigs: seq<Signal>): seq<string> {
    if sigs == [] then []
    else
      var w, sig := Writes(sigs[..|sigs| - 1]), sigs[|sigs| - 1];
      if sig.Event? && sig.event != "" then w + [sig.event] else w
  }

  lemma WritesSnoc(sigs: seq<Signal>, sig: Signal)
    ensures Writes(sigs + [sig]) == if sig.Event? && sig.event != "" then Writes(sigs) + [sig.event] else Writes(sigs)
  {
    assert (sigs + [sig])[..|sigs|] == sigs;
  }

  /** While it goes on, the loop has written every event and remembers which channel is closed. */
  lemma {:induction false} WhileGoingOn(sigs: seq<Signal>, openAI: bool)
    requires GoingOn(sigs)
    ensures Reacted(LOOP_START, sigs, openAI) ==
            Handler(Looping, DataClosed in sigs, ErrClosed in sigs, Writes(sigs) != [], Writes(sigs))
  {
    if sigs == [] {
    } else {
      var before, sig := sigs[..|sigs| - 1], sigs[|sigs| - 1];
      SplitLast(sigs);
      assert forall x :: x in sigs <==> x in before || x == sig;
      WhileGoingOn(before, openAI);
      ReactedSnoc(LOOP_START, before, sig, openAI);
      WritesSnoc(before, sig);
    }
  }

  /** The signal that ends the loop decides how: a client that left, an event that could not be written, an
      error told as a status if nothing had been written and inside the stream otherwise, or the closing
      of the second channel. */
  lemma LastSignalDecides(sigs: seq<Signal>, last: Signal, openAI: bool)
    requires GoingOn(sigs)
    ensures var h := Reacted(LOOP_START, sigs + [last], openAI);
            && (last == Left ==> h.stage == Returned(Canceled))
            && (last.Event? && last.event != "" && !last.writeOk ==> h.stage == Returned(EventLost(last.event)))
            && (last.Failed? ==>
                  h.stage == Returned(if Writes(sigs) == [] then HttpStatus(last.err)
                                      else if (openAI || last.headOk) && last.bodyOk then ErrorFrame(last.err)
                                      else FrameLost(last.err)))
            && (last == DataClosed && ErrClosed in sigs ==> h.stage == Returned(Complete))
            && (last == ErrClosed && DataClosed in sigs ==> h.stage == Returned(Complete))
            && (!Passing(last) || !GoingOn(sigs + [last]) ==> h.written == Writes(sigs))
  {
    WhileGoingOn(sigs, openAI);
    ReactedSnoc(LOOP_START, sigs, last, openAI);
    if Passing(last) && !GoingOn(sigs + [last]) {
      assert forall i :: 0 <= i < |sigs + [last]| ==> Passing((sigs + [last])[i]);
    }
  }
}
