/** What the collector answers, told from the types of the events alone.

    The definitions here are written against the event types as they stand on the wire, and share nothing
    with those the collector's loop is proved against.
 */
module Verdicts {
  import opened Wrappers
  import opened EventLines
  import opened Collector

  /** The event texts that count: the open group does at a clean end only. */
  function EventsSeen(lines: seq<string>, end: Ending): seq<string> {
    Texts(if end.Eof? then Groups(lines) else Closed(lines))
  }

  predicate HasType(c: Codec, text: string, typ: string) {
    c.event(text).Some? && c.event(text).value.typ == typ
  }

  /** The text carries an item for index `i`. */
  predicate GivesItem(c: Codec, text: string, i: int) {
    && HasType(c, text, "response.output_item.done")
    && c.event(text).value.outputIndex == i && i >= 0 && c.valid(c.event(text).value.item)
  }

  /** One of the texts does. */
  ghost predicate Given(c: Codec, texts: seq<string>, i: int) {
    exists j :: 0 <= j < |texts| && GivesItem(c, texts[j], i)
  }

  /** Text `j` is the last to give an item for index `i`. */
  ghost predicate GivesLast(c: Codec, texts: seq<string>, i: int, j: int) {
    0 <= j < |texts| && GivesItem(c, texts[j], i) && forall l :: j < l < |texts| ==> !GivesItem(c, texts[l], i)
  }

  /** The text decodes, and is an item that can be recorded or an event of no consequence. */
  predicate GoesOn(c: Codec, text: string) {
    c.event(text).Some? &&
    var e := c.event(text).value;
    if e.typ == "response.output_item.done" then e.outputIndex >= 0 && c.valid(e.item)
    else
      e.typ != "response.failed" && e.typ != "error" &&
      e.typ != "response.completed" && e.typ != "response.incomplete"
  }

  predicate IsFinalEvent(c: Codec, text: string) {
    HasType(c, text, "response.completed") || HasType(c, text, "response.incomplete")
  }

  /** Text `k` is the first of the stream that does not go on. */
  ghost predicate FirstToStop(c: Codec, texts: seq<string>, k: nat) {
    k < |texts| && !GoesOn(c, texts[k]) && forall i :: 0 <= i < k ==> GoesOn(c, texts[i])
  }

  lemma GoesOnIsNeutral(c: Codec, text: string)
    ensures GoesOn(c, text) <==> Neutral(c, text)
  {
  }

  lemma GoneOn(c: Codec, texts: seq<string>)
    requires forall i :: 0 <= i < |texts| ==> GoesOn(c, texts[i])
    ensures Verdict(c, texts) == Continue
  {
    forall t | t in texts ensures Neutral(c, t) {
      GoesOnIsNeutral(c, t);
    }
    NeutralKeepsVerdict(c, [], texts);
    assert [] + texts == texts;
  }

  lemma Stopped(c: Codec, lines: seq<string>, end: Ending, k: nat)
    requires FirstToStop(c, EventsSeen(lines, end), k)
    ensures var texts := EventsSeen(lines, end);
            var d := Decide(c, Items(c, texts[..k]), texts[k]);
            d != Continue && Collect(c, lines, end) == Conclude(d)
  {
    var texts := EventsSeen(lines, end);
    GoneOn(c, texts[..k]);
    GoesOnIsNeutral(c, texts[k]);
    NeutralContinues(c, Items(c, texts[..k]), texts[k]);
    assert texts[..k + 1][..k] == texts[..k];
    VerdictStays(c, texts[..k + 1], texts[k + 1..]);
    assert texts == texts[..k + 1] + texts[k + 1..];
  }

  /** With every event going on there is no answer but the end of the stream. */
  lemma NothingStops(c: Codec, lines: seq<string>, end: Ending)
    requires var texts := EventsSeen(lines, end); forall i :: 0 <= i < |texts| ==> GoesOn(c, texts[i])
    ensures Collect(c, lines, end) == match end case Eof => EndedEarly case Broken(code) => Transport(code)
  {
    GoneOn(c, EventsSeen(lines, end));
  }

  /** The first event that does not go on fixes the answer. */
  lemma FirstStopDecides(c: Codec, lines: seq<string>, end: Ending, k: nat)
    requires FirstToStop(c, EventsSeen(lines, end), k)
    ensures var text := EventsSeen(lines, end)[k];
            var r := Collect(c, lines, end);
            && (c.event(text) == None ==> r == Rejected(InvalidEvent))
            && (HasType(c, text, "response.failed") ==> r == Rejected(GenerationFailed))
            && (HasType(c, text, "error") ==> r == Rejected(GenerationFailed))
            && (HasType(c, text, "response.output_item.done") ==> r == Rejected(InvalidItem))
            && (IsFinalEvent(c, text) && c.event(text).value.response == None ==> r == Rejected(MissingResponse))
  {
    Stopped(c, lines, end, k);
  }

  // ---- final events with a response ------------------------------------------------------------

  lemma {:induction false} ItemsGiven(c: Codec, texts: seq<string>, i: int)
    ensures i in Items(c, texts) <==> Given(c, texts, i)
  {
    if texts == [] {
    } else {
      var before, x := texts[..|texts| - 1], texts[|texts| - 1];
      ItemsGiven(c, before, i);
      SplitLast(texts);
      ItemsSnoc(c, before, x, i);
      assert RecordsAt(c, x, i) <==> GivesItem(c, x, i);
      if j :| 0 <= j < |before| && GivesItem(c, before[j], i) {
        assert texts[j] == before[j];
      }
      if GivesItem(c, x, i) {
        assert texts[|texts| - 1] == x;
      }
    }
  }

  lemma LastGiven(c: Codec, texts: seq<string>, i: int, j: int)
    requires GivesLast(c, texts, i, j)
    ensures i in Items(c, texts) && Items(c, texts)[i] == c.event(texts[j]).value.item
  {
    var rest := texts[j..];
    assert texts == texts[..j] + rest;
    forall l | 0 <= l < |rest| && l != 0 ensures !RecordsAt(c, rest[l], i) {
      assert rest[l] == texts[j + l] && !GivesItem(c, texts[j + l], i);
    }
    ItemsSet(c, texts[..j], rest, i, 0);
  }

  /** A final event whose response brings its own output: it is refused if that is not a list, and otherwise
      stands as it is, unless it is empty while items were given. */
  lemma FinalWithOutput(c: Codec, lines: seq<string>, end: Ending, k: nat)
    requires FirstToStop(c, EventsSeen(lines, end), k) && IsFinalEvent(c, EventsSeen(lines, end)[k])
    requires var e := c.event(EventsSeen(lines, end)[k]).value; e.response.Some? && "output" in e.response.value
    ensures var texts := EventsSeen(lines, end);
            var e := c.event(texts[k]).value;
            var output := e.response.value["output"];
            var r := Collect(c, lines, end);
            && (output == "null" || c.items(output) == None ==> r == Rejected(InvalidOutput))
            && (output != "null" && c.items(output).Some? && c.items(output).value != [] ==>
                  r == Completed(e.typ, e.response.value))
            && (output != "null" && c.items(output) == Some([]) && (forall i :: !Given(c, texts[..k], i)) ==>
                  r == Completed(e.typ, e.response.value))
  {
    Stopped(c, lines, end, k);
    NoItems(c, EventsSeen(lines, end)[..k]);
  }

  lemma NoItems(c: Codec, texts: seq<string>)
    ensures Items(c, texts) == map[] <==> forall i :: !Given(c, texts, i)
  {
    forall i ensures i in Items(c, texts) <==> Given(c, texts, i) {
      ItemsGiven(c, texts, i);
    }
    assert (forall i :: i !in Items(c, texts)) ==> Items(c, texts) == map[];
  }

  /** A final event without output, or with an empty list. */
  predicate LacksOutput(c: Codec, response: map<string, string>) {
    "output" !in response || (response["output"] != "null" && c.items(response["output"]) == Some([]))
  }

  /** Neither output nor items: there is nothing to complete with. */
  lemma FinalWithNothing(c: Codec, lines: seq<string>, end: Ending, k: nat)
    requires FirstToStop(c, EventsSeen(lines, end), k) && IsFinalEvent(c, EventsSeen(lines, end)[k])
    requires var e := c.event(EventsSeen(lines, end)[k]).value; e.response.Some? && "output" !in e.response.value
    requires forall i :: !Given(c, EventsSeen(lines, end)[..k], i)
    ensures Collect(c, lines, end) == Rejected(MissingOutput)
  {
    Stopped(c, lines, end, k);
    NoItems(c, EventsSeen(lines, end)[..k]);
  }

  lemma {:induction false} RangeSize(s: set<int>, n: nat)
    requires forall i :: i in s <==> 0 <= i < n
    ensures |s| == n
  {
    if n == 0 {
      assert forall i :: i !in s;
      assert s == {};
    } else {
      RangeSize(s - {n - 1}, n - 1);
    }
  }

  lemma FinishRebuilds(c: Codec, items: map<int, string>, n: nat, typ: string, response: map<string, string>)
    requires LacksOutput(c, response) && n > 0 && forall i :: i in items <==> 0 <= i < n
    ensures |items| == n
    ensures Finish(c, items, typ, response) == Final(typ, response["output" := c.marshalList(Listed(items))])
  {
    RangeSize(items.Keys, n);
  }

  /** Items for exactly the indices 0..n-1 become the output; for each index the one given last counts. */
  lemma FinalRebuilt(c: Codec, lines: seq<string>, end: Ending, k: nat, n: nat)
    requires FirstToStop(c, EventsSeen(lines, end), k) && IsFinalEvent(c, EventsSeen(lines, end)[k])
    requires var e := c.event(EventsSeen(lines, end)[k]).value; e.response.Some? && LacksOutput(c, e.response.value)
    requires n > 0 && forall i :: Given(c, EventsSeen(lines, end)[..k], i) <==> 0 <= i < n
    ensures var texts := EventsSeen(lines, end);
            var e := c.event(texts[k]).value;
            exists list: seq<string> ::
              && Collect(c, lines, end) == Completed(e.typ, e.response.value["output" := c.marshalList(list)])
              && |list| == n
              && forall i, j :: 0 <= i < n && GivesLast(c, texts[..k], i, j) ==>
                   list[i] == c.event(texts[j]).value.item
  {
    var texts := EventsSeen(lines, end);
    var e := c.event(texts[k]).value;
    var before := texts[..k];
    var items := Items(c, before);
    forall i ensures i in items <==> 0 <= i < n {
      ItemsGiven(c, before, i);
    }
    FinishRebuilds(c, items, n, e.typ, e.response.value);
    var list := Listed(items);
    Stopped(c, lines, end, k);
    forall i, j | 0 <= i < n && GivesLast(c, before, i, j) ensures list[i] == c.event(texts[j]).value.item {
      LastGiven(c, before, i, j);
    }
    assert Collect(c, lines, end) == Completed(e.typ, e.response.value["output" := c.marshalList(list)]);
  }

  /** An item with one missing below it cannot be used. */
  lemma FinalWithGap(c: Codec, lines: seq<string>, end: Ending, k: nat, i: int, above: int)
    requires FirstToStop(c, EventsSeen(lines, end), k) && IsFinalEvent(c, EventsSeen(lines, end)[k])
    requires var e := c.event(EventsSeen(lines, end)[k]).value; e.response.Some? && LacksOutput(c, e.response.value)
    requires 0 <= i < above
    requires Given(c, EventsSeen(lines, end)[..k], above) && !Given(c, EventsSeen(lines, end)[..k], i)
    ensures Collect(c, lines, end) == Rejected(IncompleteItems)
  {
    var before := EventsSeen(lines, end)[..k];
    Stopped(c, lines, end, k);
    ItemsGiven(c, before, i);
    ItemsGiven(c, before, above);
  }
}
