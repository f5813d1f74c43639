/** What a client has in hand when its response ends, over every interleaving of the streaming pair. */
module ClientView {
  import opened Wrappers
  import opened EventLines
  import opened EventFrames
  import opened StreamPair
  import opened StreamFraming
  import opened UpstreamScanner
  import Collector

  /** The response has ended in full, or in a report of the upstream's error, with the client present. */
  predicate Delivered(s: State) {
    !s.clientGone && (s.handler.stage == Returned(Complete) || Reported(s.handler).Some?)
  }

  lemma AllWritten(run: seq<State>, i: nat)
    requires IsRun(run) && i < |run| && Delivered(run[i])
    ensures run[i].handler.written == Events(run[0].prog.ops)
  {
    RunInv(run, i);
    WrittenIsPrefix(run, i);
    if Reported(run[i].handler).Some? {
      ErrorReport(run, i);
    }
  }

  /** Same format on both sides: unless a line was too long, the client has the upstream body with its line
      ends normalised, character for character, whether the scan then succeeds or not. */
  lemma PassThroughResponse(c: Collector.Codec, body: string, readFails: bool, code: int, r: Route,
                            run: seq<State>, i: nat)
    requires r.client == r.upstream
    requires IsRun(run) && i < |run| && Delivered(run[i])
    requires var scan := ScanOf(c, body, readFails, None);
             run[0].prog == ProgramOf(r, scan.sent, if scan.err.None? then None else Some(code))
    ensures var scan := ScanOf(c, body, readFails, None);
            && Concat(run[i].handler.written) == Concat(Restored(scan.sent))
            && (scan.err != Some(LineTooLong) ==> Concat(run[i].handler.written) == CrlfToLf(Terminated(body)))
  {
    var scan := ScanOf(c, body, readFails, None);
    AllWritten(run, i);
    PassThroughProgram(r, scan.sent, if scan.err.None? then None else Some(code));
    if scan.err != Some(LineTooLong) {
      assert scan.sent == ScanLines(body);
      ScanThenEmit(body);
    }
  }

  lemma PassThroughProgram(r: Route, lines: seq<string>, failure: Option<int>)
    requires r.client == r.upstream
    ensures Events(ProgramOf(r, lines, failure).ops) == Restored(lines)
  {
    PassThroughEvents(r, lines);
    if failure.None? {
      EventsOfProgram(r, lines);
    } else {
      assert LineOps(r, lines) + [] == LineOps(r, lines);
    }
  }

  /** After a clean end of a Codex stream an OpenAI client gets the end marker. */
  function Marker(r: Route, failure: Option<int>): seq<string> {
    if failure.None? && r.client == OpenAI && r.upstream == Codex then ["[DONE]"] else []
  }

  lemma ConvertedProgram(r: Route, lines: seq<string>, failure: Option<int>)
    requires r.client != r.upstream
    ensures Events(ProgramOf(r, lines, failure).ops) ==
            Framed(r.client, Converted(r, lines)) + Frames(Marker(r, failure))
  {
    ConvertedEvents(r, lines);
    MarkerFrames(r, failure);
    if failure.None? {
      EventsOfProgram(r, lines);
    } else {
      assert LineOps(r, lines) + [] == LineOps(r, lines);
    }
  }

  lemma MarkerFrames(r: Route, failure: Option<int>)
    ensures Frames(Marker(r, failure)) ==
            if failure.None? && r.client == OpenAI && r.upstream == Codex then [Frame("[DONE]")] else []
  {
  }

  lemma OpenAIFrames(events: seq<string>)
    requires "" !in events
    ensures Framed(OpenAI, events) == Frames(events)
  {
    forall i | 0 <= i < |events| ensures FrameEvent(OpenAI, events[i]) == Frame(events[i]) {
      assert events[i] in events;
    }
  }

  /** Whether its response ends in full or in the report of an upstream error, an OpenAI client of a converted
      stream reads back exactly the converter's results and the marker, in order, if and only if no result
      contains a line feed or ends in a carriage return. */
  lemma OpenAIResponseReadsBack(r: Route, lines: seq<string>, failure: Option<int>, run: seq<State>, i: nat)
    requires r.client == OpenAI && r.client != r.upstream
    requires IsRun(run) && i < |run| && run[0].prog == ProgramOf(r, lines, failure) && Delivered(run[i])
    ensures EventTexts(Concat(run[i].handler.written)) == Results(r, NonEmpty(lines)) + Marker(r, failure) <==>
            AllOneLine(Results(r, NonEmpty(lines)))
  {
    AllWritten(run, i);
    ConvertedProgram(r, lines, failure);
    ConvertedSeesContents(r, lines);
    ConvertedNonEmpty(r, lines);
    MarkedReadBack(Converted(r, lines), r, failure, run[i].handler.written);
  }

  lemma MarkedReadBack(events: seq<string>, r: Route, failure: Option<int>, written: seq<string>)
    requires "" !in events && written == Framed(OpenAI, events) + Frames(Marker(r, failure))
    ensures EventTexts(Concat(written)) == events + Marker(r, failure) <==> AllOneLine(events)
  {
    OpenAIFrames(events);
    assert Frames(events + Marker(r, failure)) == Frames(events) + Frames(Marker(r, failure));
    assert AllOneLine(Marker(r, failure));
    AllOneLineAppend(events, Marker(r, failure));
    ReadBackExactly(events + Marker(r, failure));
  }

  // ---- other clients ---------------------------------------------------------------------------

  predicate LineEnd(ch: char) {
    ch == '\r' || ch == '\n'
  }

  /** What a client is sent for an event that already has the form of its protocol: the event as it is, if a
      blank line closes it, and otherwise the event with its trailing line ends replaced by a blank line. */
  ghost predicate ClosedForm(event: string, sent: string) {
    if |event| >= 2 && event[|event| - 2] == '\n' && event[|event| - 1] == '\n' then sent == event
    else
      exists core, tail ::
        && event == core + tail && sent == core + "\n\n"
        && (forall ch :: ch in tail ==> LineEnd(ch)) && (core == "" || !LineEnd(core[|core| - 1]))
  }

  lemma {:induction false} TrimSplits(s: string) returns (tail: string)
    ensures s == TrimLineEnds(s) + tail && forall ch :: ch in tail ==> LineEnd(ch)
    ensures TrimLineEnds(s) == "" || !LineEnd(TrimLineEnds(s)[|TrimLineEnds(s)| - 1])
  {
    if s != "" && LineEnd(s[|s| - 1]) {
      var t := TrimSplits(s[..|s| - 1]);
      tail := t + [s[|s| - 1]];
    } else {
      tail := "";
    }
  }

  lemma FrameCloses(client: Format, event: string)
    requires client != OpenAI && event != ""
    ensures ClosedForm(event, FrameEvent(client, event))
  {
    if !EndsBlank(event) {
      var tail := TrimSplits(event);
    }
  }

  /** Every other client of a converted stream is sent the converter's results one by one, in order, each
      closed by a blank line and otherwise unchanged. */
  lemma OtherClientsGetResults(r: Route, lines: seq<string>, failure: Option<int>, run: seq<State>, i: nat)
    requires r.client != OpenAI && r.client != r.upstream
    requires IsRun(run) && i < |run| && run[0].prog == ProgramOf(r, lines, failure) && Delivered(run[i])
    ensures var results, written := Results(r, NonEmpty(lines)), run[i].handler.written;
            |written| == |results| && forall k :: 0 <= k < |results| ==> ClosedForm(results[k], written[k])
  {
    AllWritten(run, i);
    ConvertedProgram(r, lines, failure);
    ConvertedSeesContents(r, lines);
    ConvertedNonEmpty(r, lines);
    MarkerFrames(r, failure);
    assert Framed(r.client, Converted(r, lines)) + [] == Framed(r.client, Converted(r, lines));
    FramesClose(r.client, Converted(r, lines), run[i].handler.written);
  }

  lemma FramesClose(client: Format, events: seq<string>, written: seq<string>)
    requires client != OpenAI && "" !in events && written == Framed(client, events)
    ensures |written| == |events| && forall k :: 0 <= k < |events| ==> ClosedForm(events[k], written[k])
  {
    forall k | 0 <= k < |events| ensures ClosedForm(events[k], written[k]) {
      assert events[k] in events;
      FrameCloses(client, events[k]);
    }
  }
}
