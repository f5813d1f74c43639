/** The collector that folds an upstream event stream into one final response. */
module Collector {
  import opened Wrappers
  import opened EventLines
  import opened JsonText

  /** The fields an event is decoded into. Raw JSON values are kept as text; an absent item is "". */
  datatype Event = Event(typ: string, response: Option<map<string, string>>, outputIndex: int, item: string)

  /** The JSON library, as total functions: what each side of the stream decodes a text into. */
  datatype Codec = Codec(
    scanType: string -> Option<string>,          // the type only, as the upstream scanner decodes it
    event: string -> Option<Event>,              // the whole event, as the collector decodes it
    items: string -> Option<seq<string>>,        // an array (or null) of raw values
    valid: string -> bool,
    marshalList: seq<string> -> string)

  /** What the proofs about both sides of a stream use of JSON. Decoding the longer record implies
      decoding the shorter one; what decodes is one bracketed object or `null`; only an object has a
      type. */
  ghost predicate Lawful(c: Codec) {
    && (forall t :: c.event(t).Some? ==> c.scanType(Trim(t)) == Some(c.event(t).value.typ))
    && (forall t :: c.event(t).Some? ==> ObjectText(t) || Trim(t) == "null")
    && (forall t :: c.scanType(t).Some? && c.scanType(t).value != "" ==> ObjectText(t))
  }

  datatype Reason =
    | InvalidEvent | GenerationFailed | InvalidItem
    | MissingResponse | InvalidOutput | IncompleteItems | MissingOutput

  datatype Decision = Continue | Final(typ: string, response: map<string, string>) | Failed(reason: Reason)

  datatype Ending = Eof | Broken(code: int)

  datatype Outcome =
    | Completed(typ: string, response: map<string, string>)
    | Rejected(reason: Reason)
    | Transport(code: int)
    | EndedEarly

  const ITEM_DONE := "response.output_item.done"
  const OUTPUT := "output"

  predicate IsFailure(typ: string) {
    typ == "response.failed" || typ == "error"
  }

  predicate IsFinal(typ: string) {
    typ == "response.completed" || typ == "response.incomplete"
  }

  // ---- what one event means --------------------------------------------------------------------

  /** The text records an output item. */
  predicate Records(c: Codec, text: string) {
    var e := c.event(text);
    e.Some? && e.value.typ == ITEM_DONE && e.value.outputIndex >= 0 && c.valid(e.value.item)
  }

  function IndexIn(c: Codec, text: string): int {
    var e := c.event(text);
    if e.Some? then e.value.outputIndex else -1
  }

  function ItemIn(c: Codec, text: string): string {
    var e := c.event(text);
    if e.Some? then e.value.item else ""
  }

  function Recorded(c: Codec, items: map<int, string>, text: string): map<int, string> {
    if Records(c, text) then
      items[IndexIn(c, text) := ItemIn(c, text)]
    else items
  }

  /** All items recorded by the texts; a later one replaces an earlier one for the same index. */
  function Items(c: Codec, texts: seq<string>): map<int, string> {
    if texts == [] then map[]
    else Recorded(c, Items(c, texts[..|texts| - 1]), texts[|texts| - 1])
  }

  /** The indices are exactly 0, 1, ..., n-1. */
  ghost predicate Dense(items: map<int, string>) {
    forall i :: i in items <==> 0 <= i < |items|
  }

  function Listed(items: map<int, string>): (list: seq<string>)
    requires forall i :: 0 <= i < |items| ==> i in items
  {
    seq(|items|, i requires 0 <= i < |items| => items[i])
  }

  predicate UsableOutput(c: Codec, response: map<string, string>) {
    OUTPUT in response && c.items(response[OUTPUT]).Some? && response[OUTPUT] != "null"
  }

  /** A final response stands as it is unless its output is absent, or empty while items were recorded. */
  ghost function Finish(c: Codec, items: map<int, string>, typ: string, response: map<string, string>): Decision {
    if OUTPUT in response && !UsableOutput(c, response) then Failed(InvalidOutput)
    else if OUTPUT in response && (c.items(response[OUTPUT]).value != [] || items == map[]) then Final(typ, response)
    else if items == map[] then Failed(MissingOutput)
    else if Dense(items) then
      Final(typ, response[OUTPUT := c.marshalList(seq(|items|, i requires 0 <= i < |items| => items[i]))])
    else Failed(IncompleteItems)
  }

  ghost function Decide(c: Codec, items: map<int, string>, text: string): Decision {
    match c.event(text)
    case None => Failed(InvalidEvent)
    case Some(e) =>
      if IsFailure(e.typ) then Failed(GenerationFailed)
      else if e.typ == ITEM_DONE then if Records(c, text) then Continue else Failed(InvalidItem)
      else if IsFinal(e.typ) then
        if e.response.None? then Failed(MissingResponse) else Finish(c, items, e.typ, e.response.value)
      else Continue
  }

  // ---- what a stream means ---------------------------------------------------------------------

  /** The verdict of the first decisive text, given the items recorded before it. */
  ghost function Verdict(c: Codec, texts: seq<string>): Decision {
    if texts == [] then Continue
    else
      var before := texts[..|texts| - 1];
      var v := Verdict(c, before);
      if v != Continue then v else Decide(c, Items(c, before), texts[|texts| - 1])
  }

  function Conclude(v: Decision): Outcome
    requires v != Continue
  {
    if v.Final? then Completed(v.typ, v.response) else Rejected(v.reason)
  }

  /** Group the lines at blanks (the open group counts at a clean end only), and let the first
      decisive event decide; with none, the way the stream ended does. */
  ghost function Collect(c: Codec, lines: seq<string>, end: Ending): Outcome {
    var v := Verdict(c, Texts(if end.Eof? then Groups(lines) else Closed(lines)));
    if v != Continue then Conclude(v)
    else if end.Eof? then EndedEarly
    else Transport(end.code)
  }

  // ---- the loop --------------------------------------------------------------------------------

  class Accumulator {
    const codec: Codec
    var data: seq<string>
    var items: map<int, string>

    constructor (c: Codec)
      ensures codec == c && data == [] && items == map[]
    {
      codec, data, items := c, [], map[];
    }

    method Add(line: string)
      requires IsData(line)
      modifies this`data
      ensures data == old(data) + [Payload(line)]
    {
      data := data + [Payload(line)];
    }

    /** Closes the current group and interprets its event, if it has one. */
    method Consume() returns (d: Decision)
      modifies this
      ensures data == []
      ensures old(data) == [] ==> d == Continue && items == old(items)
      ensures old(data) != [] ==> d == Decide(codec, old(items), Join(old(data)))
      ensures old(data) != [] ==> items == Recorded(codec, old(items), Join(old(data)))
    {
      if |data| == 0 {
        return Continue;
      }
      var raw := Join(data);
      data := [];
      var decoded := codec.event(raw);
      if decoded.None? {
        return Failed(InvalidEvent);
      }
      var event := decoded.value;
      if event.typ == "response.failed" || event.typ == "error" {
        return Failed(GenerationFailed);
      } else if event.typ == "response.output_item.done" {
        if event.outputIndex < 0 || !codec.valid(event.item) {
          return Failed(InvalidItem);
        }
        items := items[event.outputIndex := event.item];
      } else if event.typ == "response.completed" || event.typ == "response.incomplete" {
        if event.response.None? {
          return Failed(MissingResponse);
        }
        d := Complete(event.typ, event.response.value);
        return;
      }
      return Continue;
    }

    method Complete(typ: string, response: map<string, string>) returns (d: Decision)
      ensures d == Finish(codec, items, typ, response)
    {
      var present := "output" in response;
      var finalItems: seq<string> := [];
      if present {
        var decoded := codec.items(response["output"]);
        if decoded.None? || response["output"] == "null" {
          return Failed(InvalidOutput);
        }
        finalItems := decoded.value;
      }
      if !present || (|finalItems| == 0 && |items| > 0) {
        var list: seq<string> := [];
        for index := 0 to |items|
          invariant |list| == index
          invariant forall i :: 0 <= i < index ==> i in items && list[i] == items[i]
        {
          if index !in items {
            return Failed(IncompleteItems);
          }
          list := list + [items[index]];
        }
        if |list| == 0 {
          return Failed(MissingOutput);
        }
        DenseByCount(items);
        assert list == Listed(items);
        return Final(typ, response["output" := codec.marshalList(list)]);
      }
      return Final(typ, response);
    }
  }

  /** Counting up to the number of keys decides density: n keys that include 0..n-1 are 0..n-1. */
  lemma DenseByCount(items: map<int, string>)
    ensures Dense(items) <==> forall i :: 0 <= i < |items| ==> i in items
  {
    if forall i :: 0 <= i < |items| ==> i in items {
      NothingElse(items.Keys, |items|);
    }
  }

  lemma {:induction false} NothingElse(s: set<int>, n: nat)
    requires |s| == n && forall i :: 0 <= i < n ==> i in s
    ensures forall x :: x in s ==> 0 <= x < n
  {
    if n == 0 {
    } else {
      NothingElse(s - {n - 1}, n - 1);
      assert forall x :: x in s ==> x == n - 1 || x in s - {n - 1};
    }
  }

  method StreamToNonStream(c: Codec, lines: seq<string>, end: Ending) returns (r: Outcome)
    ensures r == Collect(c, lines, end)
    ensures end.Broken? ==> (r == Transport(end.code) <==> Verdict(c, Texts(Closed(lines))) == Continue)
  {
    if end.Broken? {
      TransportWins(c, lines, end.code);
    }
    var acc := new Accumulator(c);
    for i := 0 to |lines|
      invariant acc.codec == c
      invariant Folded(c, lines[..i], acc.data, acc.items)
    {
      var line := lines[i];
      assert lines[..i + 1] == lines[..i] + [line];
      if line == "" {
        FoldBlank(c, lines, i, acc.data, acc.items, end);
        var d := acc.Consume();
        if d != Continue {
          return Conclude(d);
        }
      } else {
        FoldLine(c, lines[..i], acc.data, acc.items, line);
        if IsData(line) {
          acc.Add(line);
        }
      }
    }
    assert lines[..|lines|] == lines;
    FoldEnd(c, lines, acc.data, acc.items, end);
    if end.Broken? {
      return Transport(end.code);
    }
    var d := acc.Consume();
    return if d != Continue then Conclude(d) else EndedEarly;
  }

  /** The loop's variables after `lines`, none of whose events has been decisive. */
  ghost predicate Folded(c: Codec, lines: seq<string>, data: seq<string>, items: map<int, string>) {
    var texts := Texts(Closed(lines));
    data == Data(Open(lines)) && items == Items(c, texts) && Verdict(c, texts) == Continue
  }

  ghost function GroupDecision(c: Codec, data: seq<string>, items: map<int, string>): Decision {
    if data == [] then Continue else Decide(c, items, Join(data))
  }

  lemma GroupsDecision(c: Codec, lines: seq<string>, data: seq<string>, items: map<int, string>)
    requires Folded(c, lines, data, items)
    ensures Verdict(c, Texts(Groups(lines))) == GroupDecision(c, data, items)
    ensures Items(c, Texts(Groups(lines))) == if data == [] then items else Recorded(c, items, Join(data))
  {
    CloseGroup(lines);
    NextText(c, Texts(Closed(lines)), Texts(Groups(lines)));
  }

  lemma FoldBlank(c: Codec, lines: seq<string>, i: nat, data: seq<string>, items: map<int, string>, end: Ending)
    requires i < |lines| && lines[i] == "" && Folded(c, lines[..i], data, items)
    ensures GroupDecision(c, data, items) == Continue ==>
              Folded(c, lines[..i + 1], [], if data == [] then items else Recorded(c, items, Join(data)))
    ensures GroupDecision(c, data, items) != Continue ==>
              Collect(c, lines, end) == Conclude(GroupDecision(c, data, items))
  {
    var before, after := lines[..i], lines[..i + 1];
    assert after == before + [""];
    CloseGroup(before);
    GroupsDecision(c, before, data, items);
    if GroupDecision(c, data, items) != Continue {
      SettledAt(c, lines, i + 1, end);
    }
  }

  lemma SettledAt(c: Codec, lines: seq<string>, k: nat, end: Ending)
    requires k <= |lines| && Verdict(c, Texts(Closed(lines[..k]))) != Continue
    ensures Collect(c, lines, end) == Conclude(Verdict(c, Texts(Closed(lines[..k]))))
  {
    assert lines == lines[..k] + lines[k..];
    Settled(c, lines[..k], lines[k..], end);
  }

  lemma FoldEnd(c: Codec, lines: seq<string>, data: seq<string>, items: map<int, string>, end: Ending)
    requires Folded(c, lines, data, items)
    ensures Collect(c, lines, end) ==
            if end.Broken? then Transport(end.code)
            else if GroupDecision(c, data, items) == Continue then EndedEarly
            else Conclude(GroupDecision(c, data, items))
  {
    GroupsDecision(c, lines, data, items);
  }

  lemma FoldLine(c: Codec, lines: seq<string>, data: seq<string>, items: map<int, string>, line: string)
    requires Folded(c, lines, data, items) && line != ""
    ensures Folded(c, lines + [line], if IsData(line) then data + [Payload(line)] else data, items)
  {
    OpenLine(lines, line);
  }

  lemma CloseGroup(lines: seq<string>)
    ensures Closed(lines + [""]) == Groups(lines)
    ensures Data(Open(lines + [""])) == []
    ensures Texts(Groups(lines)) == Texts(Closed(lines)) +
                                    (if Data(Open(lines)) == [] then [] else [Join(Data(Open(lines)))])
  {
    ClosedBlank(lines);
    SplitLast(Groups(lines));
    TextsSnoc(Closed(lines), Open(lines));
  }

  lemma TextsSnoc(groups: seq<seq<string>>, last: seq<string>)
    ensures Texts(groups + [last]) == Texts(groups) + (if Data(last) == [] then [] else [Join(Data(last))])
  {
    var g := groups + [last];
    assert g[..|g| - 1] == groups;
  }

  lemma NextText(c: Codec, before: seq<string>, after: seq<string>)
    requires before == after || (|after| > 0 && before == after[..|after| - 1])
    ensures before != after ==> Items(c, after) == Recorded(c, Items(c, before), after[|after| - 1])
    ensures before != after && Verdict(c, before) == Continue ==>
              Verdict(c, after) == Decide(c, Items(c, before), after[|after| - 1])
  {
  }

  lemma {:induction false} VerdictStays(c: Codec, texts: seq<string>, more: seq<string>)
    requires Verdict(c, texts) != Continue
    ensures Verdict(c, texts + more) == Verdict(c, texts)
  {
    if more == [] {
      assert texts + more == texts;
    } else {
      var t := texts + more;
      assert t[..|t| - 1] == texts + more[..|more| - 1];
      VerdictStays(c, texts, more[..|more| - 1]);
    }
  }

  /** Lines after the first decisive event, and the way the stream ends, never change the outcome. */
  lemma Settled(c: Codec, lines: seq<string>, more: seq<string>, end: Ending)
    requires Verdict(c, Texts(Closed(lines))) != Continue
    ensures Collect(c, lines + more, end) == Conclude(Verdict(c, Texts(Closed(lines))))
  {
    GroupsExtend(lines, more);
    var used := if end.Eof? then Groups(lines + more) else Closed(lines + more);
    var k := |Closed(lines)|;
    assert used == Closed(lines) + used[k..];
    TextsAppend(Closed(lines), used[k..]);
    VerdictStays(c, Texts(Closed(lines)), Texts(used[k..]));
  }

  /** A transport error that comes before any decisive event has been closed always wins. */
  lemma TransportWins(c: Codec, lines: seq<string>, code: int)
    ensures Collect(c, lines, Broken(code)) == Transport(code) <==> Verdict(c, Texts(Closed(lines))) == Continue
  {
  }

  ghost function DecisionAt(c: Codec, texts: seq<string>, i: nat): Decision
    requires i < |texts|
  {
    Decide(c, Items(c, texts[..i]), texts[i])
  }

  /** The verdict is that of the first text that decides. */
  lemma {:induction false} VerdictIsFirst(c: Codec, texts: seq<string>)
    ensures Verdict(c, texts) == Continue <==> forall i :: 0 <= i < |texts| ==> DecisionAt(c, texts, i) == Continue
    ensures Verdict(c, texts) != Continue ==>
              exists i :: 0 <= i < |texts| && Verdict(c, texts) == DecisionAt(c, texts, i) &&
                forall j :: 0 <= j < i ==> DecisionAt(c, texts, j) == Continue
  {
    if texts == [] {
    } else {
      var n := |texts| - 1;
      var before := texts[..n];
      VerdictIsFirst(c, before);
      forall i | 0 <= i < n ensures DecisionAt(c, before, i) == DecisionAt(c, texts, i) {
        assert before[..i] == texts[..i];
      }
      if Verdict(c, before) != Continue {
        var i :| 0 <= i < n && Verdict(c, before) == DecisionAt(c, before, i) &&
          forall j :: 0 <= j < i ==> DecisionAt(c, before, j) == Continue;
        assert DecisionAt(c, texts, i) != Continue;
      } else {
        assert Verdict(c, texts) == DecisionAt(c, texts, n);
      }
    }
  }

  // ---- rebuilding the output -------------------------------------------------------------------

  /** Text `k` is the last one that records index `i`. */
  ghost predicate LastFor(c: Codec, texts: seq<string>, i: int, k: int) {
    && 0 <= k < |texts| && Records(c, texts[k]) && IndexIn(c, texts[k]) == i
    && forall l :: k < l < |texts| && Records(c, texts[l]) ==> IndexIn(c, texts[l]) != i
  }

  lemma {:induction false} ItemsAreLast(c: Codec, texts: seq<string>, i: int)
    ensures i in Items(c, texts) <==> exists k :: LastFor(c, texts, i, k)
    ensures forall k :: LastFor(c, texts, i, k) ==> Items(c, texts)[i] == ItemIn(c, texts[k])
  {
    if texts == [] {
    } else {
      var n := |texts| - 1;
      var before := texts[..n];
      ItemsAreLast(c, before, i);
      if Records(c, texts[n]) && IndexIn(c, texts[n]) == i {
        assert LastFor(c, texts, i, n);
      } else {
        forall k ensures LastFor(c, before, i, k) <==> LastFor(c, texts, i, k) {
          if LastFor(c, texts, i, k) {
            assert k < n;
            forall l | k < l < n && Records(c, before[l]) ensures IndexIn(c, before[l]) != i {
              assert before[l] == texts[l];
            }
          }
        }
      }
    }
  }

  /** Rebuilding succeeds exactly for a non-empty dense set of indices, and slot `i` is the last item
      recorded for `i`. A usable non-empty output in the final response is never replaced. */
  lemma Reconstruction(c: Codec, texts: seq<string>, typ: string, response: map<string, string>)
    requires OUTPUT in response ==> UsableOutput(c, response)
    ensures var items := Items(c, texts);
            var d := Finish(c, items, typ, response);
            var given := OUTPUT in response && (c.items(response[OUTPUT]).value != [] || items == map[]);
            && (given ==> d == Final(typ, response))
            && (!given ==> (d.Final? <==> items != map[] && Dense(items)))
            && (!given && d.Final? ==>
                  exists list :: d == Final(typ, response[OUTPUT := c.marshalList(list)]) && |list| == |items| &&
                    forall i, k :: 0 <= i < |list| && LastFor(c, texts, i, k) ==> list[i] == ItemIn(c, texts[k]))
  {
    var items := Items(c, texts);
    var d := Finish(c, items, typ, response);
    var given := OUTPUT in response && (c.items(response[OUTPUT]).value != [] || items == map[]);
    if !given && d.Final? {
      DenseByCount(items);
      var list := Listed(items);
      forall i, k | 0 <= i < |list| && LastFor(c, texts, i, k)
        ensures list[i] == ItemIn(c, texts[k])
      {
        ItemsAreLast(c, texts, i);
      }
      assert d == Final(typ, response[OUTPUT := c.marshalList(list)]);
    }
  }

  /** A text that lets the collector go on. */
  predicate Neutral(c: Codec, text: string) {
    var e := c.event(text);
    && e.Some? && !IsFailure(e.value.typ) && !IsFinal(e.value.typ)
    && (e.value.typ == ITEM_DONE ==> Records(c, text))
  }

  lemma {:induction false} NeutralContinues(c: Codec, items: map<int, string>, text: string)
    ensures Decide(c, items, text) == Continue <==> Neutral(c, text)
  {
  }

  /** The text records an item for index `i`. */
  predicate RecordsAt(c: Codec, text: string, i: int) {
    Records(c, text) && IndexIn(c, text) == i
  }

  /** Each index is recorded at most once. */
  ghost predicate DistinctRecords(c: Codec, texts: seq<string>) {
    forall i, j :: 0 <= i < j < |texts| && Records(c, texts[i]) && Records(c, texts[j]) ==>
      IndexIn(c, texts[i]) != IndexIn(c, texts[j])
  }

  lemma ItemsSnoc(c: Codec, texts: seq<string>, x: string, i: int)
    ensures RecordsAt(c, x, i) ==> i in Items(c, texts + [x]) && Items(c, texts + [x])[i] == ItemIn(c, x)
    ensures !RecordsAt(c, x, i) ==>
              && (i in Items(c, texts + [x]) <==> i in Items(c, texts))
              && (i in Items(c, texts) ==> Items(c, texts + [x])[i] == Items(c, texts)[i])
  {
    assert (texts + [x])[..|texts|] == texts;
  }

  /** What no text records stays as it was. */
  lemma {:induction false} ItemsKept(c: Codec, pre: seq<string>, texts: seq<string>, i: int)
    requires forall k :: 0 <= k < |texts| ==> !RecordsAt(c, texts[k], i)
    ensures i in Items(c, pre + texts) <==> i in Items(c, pre)
    ensures i in Items(c, pre) ==> Items(c, pre + texts)[i] == Items(c, pre)[i]
  {
    if texts == [] {
      assert pre + texts == pre;
    } else {
      var before, x := texts[..|texts| - 1], texts[|texts| - 1];
      ItemsKept(c, pre, before, i);
      SplitLast(texts);
      Associate(pre, before, [x]);
      ItemsSnoc(c, pre + before, x, i);
    }
  }

  /** What one text alone records is there afterwards. */
  lemma {:induction false} ItemsSet(c: Codec, pre: seq<string>, texts: seq<string>, i: int, k: nat)
    requires k < |texts| && RecordsAt(c, texts[k], i)
    requires forall l :: 0 <= l < |texts| && l != k ==> !RecordsAt(c, texts[l], i)
    ensures i in Items(c, pre + texts) && Items(c, pre + texts)[i] == ItemIn(c, texts[k])
  {
    var before, x := texts[..|texts| - 1], texts[|texts| - 1];
    SplitLast(texts);
    Associate(pre, before, [x]);
    ItemsSnoc(c, pre + before, x, i);
    if k < |before| {
      ItemsSet(c, pre, before, i, k);
    }
  }

  lemma {:induction false} ItemsExtend(c: Codec, a: seq<string>, b: seq<string>, rest: seq<string>)
    requires Items(c, a) == Items(c, b) && Verdict(c, a) == Verdict(c, b)
    ensures Items(c, a + rest) == Items(c, b + rest) && Verdict(c, a + rest) == Verdict(c, b + rest)
  {
    if rest == [] {
      assert a + rest == a && b + rest == b;
    } else {
      var r := rest[..|rest| - 1];
      ItemsExtend(c, a, b, r);
      assert (a + rest)[..|a + rest| - 1] == a + r;
      assert (b + rest)[..|b + rest| - 1] == b + r;
    }
  }

  lemma {:induction false} NeutralKeepsVerdict(c: Codec, pre: seq<string>, texts: seq<string>)
    requires Verdict(c, pre) == Continue && forall t :: t in texts ==> Neutral(c, t)
    ensures Verdict(c, pre + texts) == Continue
  {
    if texts == [] {
      assert pre + texts == pre;
    } else {
      var before, x := texts[..|texts| - 1], texts[|texts| - 1];
      assert x in texts;
      NeutralKeepsVerdict(c, pre, before);
      assert (pre + texts)[..|pre + texts| - 1] == pre + before;
      NeutralContinues(c, Items(c, pre + before), x);
    }
  }

  lemma SameItemAt(c: Codec, pre: seq<string>, a: seq<string>, b: seq<string>, i: int, k: nat)
    requires DistinctRecords(c, a) && DistinctRecords(c, b)
    requires k < |a| && RecordsAt(c, a[k], i) && a[k] in b
    ensures i in Items(c, pre + a) && i in Items(c, pre + b) && Items(c, pre + a)[i] == Items(c, pre + b)[i]
  {
    var l :| 0 <= l < |b| && b[l] == a[k];
    ItemsSet(c, pre, a, i, k);
    ItemsSet(c, pre, b, i, l);
  }

  /** Two arrangements of the same events, each index recorded at most once, leave the same items. */
  lemma SameItems(c: Codec, pre: seq<string>, a: seq<string>, b: seq<string>)
    requires DistinctRecords(c, a) && DistinctRecords(c, b) && forall t :: t in a <==> t in b
    ensures Items(c, pre + a) == Items(c, pre + b)
  {
    forall i ensures i in Items(c, pre + a) <==> i in Items(c, pre + b)
             ensures i in Items(c, pre + a) ==> Items(c, pre + a)[i] == Items(c, pre + b)[i] {
      if k :| 0 <= k < |a| && RecordsAt(c, a[k], i) {
        assert a[k] in a;
        SameItemAt(c, pre, a, b, i, k);
      } else {
        forall l | 0 <= l < |b| ensures !RecordsAt(c, b[l], i) {
          assert b[l] in b;
        }
        ItemsKept(c, pre, a, i);
        ItemsKept(c, pre, b, i);
      }
    }
  }

  /** Wherever in a stream a stretch of events stands that all let the collector go on, their order never
      changes the verdict of the stream, as long as no two of them record an item for the same index. */
  lemma ItemOrderIrrelevant(c: Codec, pre: seq<string>, a: seq<string>, b: seq<string>, rest: seq<string>)
    requires (forall t :: t in a ==> Neutral(c, t)) && DistinctRecords(c, a)
    requires multiset(a) == multiset(b)
    ensures Verdict(c, pre + a + rest) == Verdict(c, pre + b + rest)
  {
    assert forall t :: t in a <==> t in multiset(a);
    assert forall t :: t in b <==> t in multiset(b);
    if Verdict(c, pre) == Continue {
      DistinctPermuted(c, a, b);
      SameItems(c, pre, a, b);
      NeutralKeepsVerdict(c, pre, a);
      NeutralKeepsVerdict(c, pre, b);
      ItemsExtend(c, pre + a, pre + b, rest);
    } else {
      VerdictStays(c, pre, a + rest);
      VerdictStays(c, pre, b + rest);
      Associate(pre, a, rest);
      Associate(pre, b, rest);
    }
  }

  /** Hence two streams of lines that carry the same events but for such a rearrangement have one outcome. */
  lemma OutcomeIgnoresItemOrder(c: Codec, lines: seq<string>, other: seq<string>,
                                pre: seq<string>, a: seq<string>, b: seq<string>, rest: seq<string>)
    requires (forall t :: t in a ==> Neutral(c, t)) && DistinctRecords(c, a)
    requires multiset(a) == multiset(b)
    requires Texts(Groups(lines)) == pre + a + rest && Texts(Groups(other)) == pre + b + rest
    ensures Collect(c, lines, Eof) == Collect(c, other, Eof)
  {
    ItemOrderIrrelevant(c, pre, a, b, rest);
  }

  lemma DistinctPermuted(c: Codec, a: seq<string>, b: seq<string>)
    requires DistinctRecords(c, a) && multiset(a) == multiset(b)
    ensures DistinctRecords(c, b)
  {
    forall i, j | 0 <= i < j < |b| && Records(c, b[i]) && Records(c, b[j])
      ensures IndexIn(c, b[i]) != IndexIn(c, b[j])
    {
      assert b[i] in multiset(b) && b[j] in multiset(b);
      var k :| 0 <= k < |a| && a[k] == b[i];
      var l :| 0 <= l < |a| && a[l] == b[j];
      if k == l {
        TwiceInMultiset(b, i, j);
        OnceInMultiset(a, k);
        assert false;
      }
    }
  }

  lemma TwiceInMultiset(b: seq<string>, i: int, j: int)
    requires 0 <= i < j < |b| && b[i] == b[j]
    ensures multiset(b)[b[i]] >= 2
  {
    assert b == b[..j] + b[j..];
    assert b[..j][i] == b[i] && b[j..][0] == b[i];
    assert multiset(b) == multiset(b[..j]) + multiset(b[j..]);
    assert b[i] in multiset(b[..j]) && b[i] in multiset(b[j..]);
  }

  lemma OnceInMultiset(a: seq<string>, k: int)
    requires 0 <= k < |a| && forall i :: 0 <= i < |a| && i != k ==> a[i] != a[k]
    ensures multiset(a)[a[k]] == 1
  {
    assert a == a[..k] + [a[k]] + a[k + 1..];
    assert multiset(a) == multiset(a[..k]) + multiset{a[k]} + multiset(a[k + 1..]);
    assert a[k] !in a[..k] && a[k] !in a[k + 1..];
  }
}
