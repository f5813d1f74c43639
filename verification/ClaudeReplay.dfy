/** Replaying a finished Claude message as the event stream it would have been sent as. */
module ClaudeReplay {
  import opened Wrappers
  import opened EventLines
  import opened EventFrames

  /** Raw JSON values are kept as text. */
  type Fields = map<string, string>

  datatype Start = TextStart | ThinkingStart | ToolStart(id: string, name: string)

  datatype Delta = TextDelta(text: string) | ThinkingDelta(thinking: string) | InputDelta(partialJson: string)

  datatype Event =
    | MessageStart(message: Fields)
    | BlockStart(index: nat, start: Start)
    | BlockDelta(index: nat, delta: Delta)
    | BlockStop(index: nat)
    | MessageDelta(stopReason: string, stopSequence: string, usage: string)
    | MessageStop

  /** The JSON library: decoding of the message, of its content, of a string; which raw values are valid and
      how they are printed inside another value; and printing and reading of events. */
  datatype Codec = Codec(
    message: string -> Option<Fields>,
    blocks: string -> Option<seq<Fields>>,
    text: string -> string,
    valid: string -> bool,
    normal: string -> string,              // compacted, and with <, > and & escaped
    encode: Event -> string,
    parse: string -> Option<Event>)

  ghost predicate ValidFields(c: Codec, f: Fields) {
    forall k :: k in f ==> c.valid(f[k])
  }

  function NormalFields(c: Codec, f: Fields): Fields {
    map k | k in f :: c.normal(f[k])
  }

  /** Every raw value in the event is valid; a partial input is a string, and may be any. */
  ghost predicate ValidEvent(c: Codec, e: Event) {
    match e
    case MessageStart(m) => ValidFields(c, m)
    case BlockStart(_, ToolStart(id, name)) => c.valid(id) && c.valid(name)
    case BlockDelta(_, TextDelta(t)) => c.valid(t)
    case BlockDelta(_, ThinkingDelta(t)) => c.valid(t)
    case MessageDelta(reason, sequence, usage) => c.valid(reason) && c.valid(sequence) && c.valid(usage)
    case _ => true
  }

  /** The event as a reader gets it: raw values in normal form, a partial input exactly. */
  function NormalEvent(c: Codec, e: Event): Event {
    match e
    case MessageStart(m) => MessageStart(NormalFields(c, m))
    case BlockStart(i, ToolStart(id, name)) => BlockStart(i, ToolStart(c.normal(id), c.normal(name)))
    case BlockDelta(i, TextDelta(t)) => BlockDelta(i, TextDelta(c.normal(t)))
    case BlockDelta(i, ThinkingDelta(t)) => BlockDelta(i, ThinkingDelta(c.normal(t)))
    case MessageDelta(reason, sequence, usage) => MessageDelta(c.normal(reason), c.normal(sequence), c.normal(usage))
    case _ => e
  }

  /** What is decoded is valid, and what is valid is printed on one line and read back in normal form. */
  ghost predicate Lawful(c: Codec) {
    && (forall e :: ValidEvent(c, e) ==> OneLine(c.encode(e)) && c.parse(c.encode(e)) == Some(NormalEvent(c, e)))
    && (forall t :: c.message(t).Some? ==> ValidFields(c, c.message(t).value))
    && (forall t, i :: c.blocks(t).Some? && 0 <= i < |c.blocks(t).value| ==> ValidFields(c, c.blocks(t).value[i]))
    && c.valid("null") && c.valid("[]")
  }

  /** A raw value as it is printed: an absent one becomes null. */
  function Raw(f: Fields, key: string): string {
    if key in f then f[key] else "null"
  }

  function RawText(f: Fields, key: string): string {
    if key in f then f[key] else ""
  }

  datatype Block = Text(text: string) | Thinking(thinking: string) | ToolUse(id: string, name: string, input: string)

  /** The content block a raw block stands for; other kinds are not supported. */
  function BlockOf(c: Codec, block: Fields): Option<Block> {
    var kind := if "type" in block then c.text(block["type"]) else "";
    if kind == "text" then Some(Text(Raw(block, "text")))
    else if kind == "thinking" then Some(Thinking(Raw(block, "thinking")))
    else if kind == "tool_use" then Some(ToolUse(Raw(block, "id"), Raw(block, "name"), RawText(block, "input")))
    else None
  }

  ghost predicate Supported(c: Codec, blocks: seq<Fields>) {
    forall i :: 0 <= i < |blocks| ==> BlockOf(c, blocks[i]).Some?
  }

  function StartOf(b: Block): Start {
    match b
    case Text(_) => TextStart
    case Thinking(_) => ThinkingStart
    case ToolUse(id, name, _) => ToolStart(id, name)
  }

  function DeltaOf(b: Block): Delta {
    match b
    case Text(t) => TextDelta(t)
    case Thinking(t) => ThinkingDelta(t)
    case ToolUse(_, _, input) => InputDelta(input)
  }

  function Triple(index: nat, start: Start, delta: Delta): seq<Event> {
    [BlockStart(index, start), BlockDelta(index, delta), BlockStop(index)]
  }

  function BlockEvents(c: Codec, blocks: seq<Fields>): seq<Event> {
    if blocks == [] then []
    else
      var n := |blocks| - 1;
      var rest := BlockEvents(c, blocks[..n]);
      match BlockOf(c, blocks[n])
      case None => rest
      case Some(b) => rest + Triple(n, StartOf(b), DeltaOf(b))
  }

  function Emptied(m: Fields): Fields {
    m["content" := "[]"]
  }

  function Replay(c: Codec, m: Fields, blocks: seq<Fields>): seq<Event> {
    [MessageStart(Emptied(m))] + BlockEvents(c, blocks) +
    [MessageDelta(Raw(m, "stop_reason"), Raw(m, "stop_sequence"), Raw(m, "usage")), MessageStop]
  }

  function Printed(c: Codec, events: seq<Event>): seq<string> {
    seq(|events|, i requires 0 <= i < |events| => c.encode(events[i]))
  }

  function Output(c: Codec, events: seq<Event>): string {
    Concat(Frames(Printed(c, events)))
  }

  /** The message and the blocks of a body that can be replayed. */
  ghost function Decoded(c: Codec, raw: string): Option<(Fields, seq<Fields>)> {
    var m := c.message(raw);
    if m.None? || RawText(m.value, "type") != "\"message\"" || "content" !in m.value then None
    else
      var blocks := c.blocks(m.value["content"]);
      if blocks.None? || !Supported(c, blocks.value) then None else Some((m.value, blocks.value))
  }

  /** Prints the events one after the other; the empty text stands for no result. */
  method ClaudeMessageEvents(c: Codec, raw: string) returns (result: string)
    ensures Decoded(c, raw).None? ==> result == ""
    ensures Decoded(c, raw).Some? ==>
              var (m, blocks) := Decoded(c, raw).value;
              result == Output(c, Replay(c, m, blocks)) && result != ""
  {
    var decoded := c.message(raw);
    if decoded.None? || RawText(decoded.value, "type") != "\"message\"" || "content" !in decoded.value {
      return "";
    }
    var message := decoded.value;
    var content := c.blocks(message["content"]);
    if content.None? {
      return "";
    }
    var blocks := content.value;
    message := message["content" := "[]"];
    var events := [MessageStart(message)];
    result := AppendEvent(c, [], "", MessageStart(message));
    assert [] + events == events;
    var ok: bool;
    ok, result := AppendBlocks(c, events, result, blocks);
    if !ok {
      return "";
    }
    events := events + BlockEvents(c, blocks);
    var end := MessageDelta(Raw(message, "stop_reason"), Raw(message, "stop_sequence"), Raw(message, "usage"));
    result := AppendEvent(c, events, result, end);
    result := AppendEvent(c, events + [end], result, MessageStop);
    assert events + [end] + [MessageStop] == Replay(c, decoded.value, blocks);
    NotEmpty(c, Replay(c, decoded.value, blocks));
  }

  method AppendBlocks(c: Codec, ghost events: seq<Event>, text: string, blocks: seq<Fields>)
    returns (ok: bool, result: string)
    requires text == Output(c, events)
    ensures ok <==> Supported(c, blocks)
    ensures ok ==> result == Output(c, events + BlockEvents(c, blocks))
  {
    result := text;
    ghost var printed := events;
    assert events + [] == events;
    for index := 0 to |blocks|
      invariant Supported(c, blocks[..index])
      invariant printed == events + BlockEvents(c, blocks[..index])
      invariant result == Output(c, printed)
    {
      var supported, start, delta := SplitBlock(c, blocks[index]);
      if !supported {
        return false, "";
      }
      SupportedSnoc(c, blocks, index);
      NextBlock(c, events, blocks, index);
      result := AppendBlock(c, printed, result, index, start, delta);
      printed := printed + Triple(index, start, delta);
    }
    assert blocks[..|blocks|] == blocks;
    ok := true;
  }

  lemma SupportedSnoc(c: Codec, blocks: seq<Fields>, n: nat)
    requires n < |blocks| && Supported(c, blocks[..n]) && BlockOf(c, blocks[n]).Some?
    ensures Supported(c, blocks[..n + 1])
  {
  }

  method SplitBlock(c: Codec, block: Fields) returns (ok: bool, start: Start, delta: Delta)
    ensures ok <==> BlockOf(c, block).Some?
    ensures ok ==> start == StartOf(BlockOf(c, block).value) && delta == DeltaOf(BlockOf(c, block).value)
  {
    var kind := if "type" in block then c.text(block["type"]) else "";
    if kind == "text" {
      return true, TextStart, TextDelta(Raw(block, "text"));
    } else if kind == "thinking" {
      return true, ThinkingStart, ThinkingDelta(Raw(block, "thinking"));
    } else if kind == "tool_use" {
      return true, ToolStart(Raw(block, "id"), Raw(block, "name")), InputDelta(RawText(block, "input"));
    }
    return false, TextStart, TextDelta("");
  }

  lemma NotEmpty(c: Codec, events: seq<Event>)
    requires events != []
    ensures Output(c, events) != ""
  {
    assert Frames(Printed(c, events))[0] == Frame(c.encode(events[0]));
  }

  lemma NextBlock(c: Codec, events: seq<Event>, blocks: seq<Fields>, n: nat)
    requires n < |blocks| && BlockOf(c, blocks[n]).Some?
    ensures var b := BlockOf(c, blocks[n]).value;
            events + BlockEvents(c, blocks[..n + 1]) ==
            events + BlockEvents(c, blocks[..n]) + Triple(n, StartOf(b), DeltaOf(b))
  {
    assert blocks[..n + 1][..n] == blocks[..n];
  }

  method AppendBlock(c: Codec, ghost events: seq<Event>, text: string, index: nat, start: Start, delta: Delta)
    returns (result: string)
    requires text == Output(c, events)
    ensures result == Output(c, events + Triple(index, start, delta))
  {
    var e0, e1, e2 := BlockStart(index, start), BlockDelta(index, delta), BlockStop(index);
    result := AppendEvent(c, events, text, e0);
    result := AppendEvent(c, events + [e0], result, e1);
    result := AppendEvent(c, events + [e0] + [e1], result, e2);
    assert events + [e0] + [e1] + [e2] == events + Triple(index, start, delta);
  }

  method AppendEvent(c: Codec, ghost events: seq<Event>, text: string, event: Event) returns (result: string)
    requires text == Output(c, events)
    ensures result == Output(c, events + [event])
  {
    var data := c.encode(event);
    result := text + "data: ";
    result := result + data;
    result := result + "\n\n";
    var more := Frames(Printed(c, events + [event]));
    assert more == Frames(Printed(c, events)) + [Frame(data)];
    ConcatAppend(Frames(Printed(c, events)), [Frame(data)]);
    assert Concat([Frame(data)]) == Frame(data);
  }

  // ---- what the events say, field by field -----------------------------------------------------

  /** The kind that a block names in its type field. */
  function KindOf(c: Codec, block: Fields): string {
    if "type" in block then c.text(block["type"]) else ""
  }

  /** The field of a block as it is printed: null if it is absent. */
  function Printable(block: Fields, key: string): string {
    if key in block then block[key] else "null"
  }

  lemma BlockEventsSnoc(c: Codec, blocks: seq<Fields>)
    requires Supported(c, blocks) && blocks != []
    ensures var n := |blocks| - 1;
            var b := BlockOf(c, blocks[n]).value;
            && Supported(c, blocks[..n])
            && BlockEvents(c, blocks) == BlockEvents(c, blocks[..n]) + Triple(n, StartOf(b), DeltaOf(b))
            && |BlockEvents(c, blocks[..n])| == 3 * n
  {
    ThreePerBlock(c, blocks[..|blocks| - 1]);
  }

  lemma {:induction false} BlockEventsAt(c: Codec, blocks: seq<Fields>, i: nat)
    requires Supported(c, blocks) && i < |blocks|
    ensures |BlockEvents(c, blocks)| == 3 * |blocks|
    ensures var b := BlockOf(c, blocks[i]).value;
            var e := BlockEvents(c, blocks);
            && e[3 * i] == BlockStart(i, StartOf(b)) && e[3 * i + 1] == BlockDelta(i, DeltaOf(b))
            && e[3 * i + 2] == BlockStop(i)
  {
    BlockEventsSnoc(c, blocks);
    if i < |blocks| - 1 {
      BlockEventsAt(c, blocks[..|blocks| - 1], i);
    }
  }

  lemma BlockParts(c: Codec, b: Fields)
    requires BlockOf(c, b).Some?
    ensures var start, delta := StartOf(BlockOf(c, b).value), DeltaOf(BlockOf(c, b).value);
            && (KindOf(c, b) == "text" ==> start == TextStart && delta == TextDelta(Printable(b, "text")))
            && (KindOf(c, b) == "thinking" ==>
                  start == ThinkingStart && delta == ThinkingDelta(Printable(b, "thinking")))
            && (KindOf(c, b) == "tool_use" ==>
                  && start == ToolStart(Printable(b, "id"), Printable(b, "name"))
                  && delta == InputDelta(if "input" in b then b["input"] else ""))
  {
  }

  /** Block `i` is announced by its kind, filled from the field of that kind, and closed. */
  lemma BlockFields(c: Codec, blocks: seq<Fields>, i: nat)
    requires Supported(c, blocks) && i < |blocks|
    ensures var e, b := BlockEvents(c, blocks), blocks[i];
            && |e| == 3 * |blocks|
            && (KindOf(c, b) == "text" ==>
                  && e[3 * i] == BlockStart(i, TextStart)
                  && e[3 * i + 1] == BlockDelta(i, TextDelta(Printable(b, "text"))))
            && (KindOf(c, b) == "thinking" ==>
                  && e[3 * i] == BlockStart(i, ThinkingStart)
                  && e[3 * i + 1] == BlockDelta(i, ThinkingDelta(Printable(b, "thinking"))))
            && (KindOf(c, b) == "tool_use" ==>
                  && e[3 * i] == BlockStart(i, ToolStart(Printable(b, "id"), Printable(b, "name")))
                  && e[3 * i + 1] == BlockDelta(i, InputDelta(if "input" in b then b["input"] else "")))
            && e[3 * i + 2] == BlockStop(i)
  {
    BlockEventsAt(c, blocks, i);
    BlockParts(c, blocks[i]);
  }

  /** The message goes out first with its content emptied, and its stop fields and usage last. */
  lemma EnvelopeFields(c: Codec, m: Fields, blocks: seq<Fields>)
    ensures var e := Replay(c, m, blocks);
            && |e| == |BlockEvents(c, blocks)| + 3 && e[1..|e| - 2] == BlockEvents(c, blocks)
            && e[0] == MessageStart(m["content" := "[]"])
            && e[|e| - 2] ==
               MessageDelta(Printable(m, "stop_reason"), Printable(m, "stop_sequence"), Printable(m, "usage"))
            && e[|e| - 1] == MessageStop
  {
  }

  /** What can be replayed: a message of that type whose content is a list of blocks of the three kinds. */
  lemma ReplayableExactly(c: Codec, raw: string)
    ensures Decoded(c, raw).Some? <==>
            && c.message(raw).Some?
            && var m := c.message(raw).value;
               && "type" in m && m["type"] == "\"message\"" && "content" in m && c.blocks(m["content"]).Some?
               && forall i :: 0 <= i < |c.blocks(m["content"]).value| ==>
                    KindOf(c, c.blocks(m["content"]).value[i]) in ["text", "thinking", "tool_use"]
    ensures Decoded(c, raw).Some? ==>
              && Decoded(c, raw).value.0 == c.message(raw).value
              && Some(Decoded(c, raw).value.1) == c.blocks(c.message(raw).value["content"])
  {
    forall block ensures BlockOf(c, block).Some? <==> KindOf(c, block) in ["text", "thinking", "tool_use"] {
    }
  }

  // ---- reading the stream back -----------------------------------------------------------------

  /** A reader that accepts only well-nested streams with consecutive indices, and collects what they say. */
  datatype Reader =
    | Fresh
    | Reading(message: Fields, blocks: seq<Block>, open: bool)
    | Stopping(message: Fields, blocks: seq<Block>, stopReason: string, stopSequence: string, usage: string)
    | Finished(message: Fields, blocks: seq<Block>, stopReason: string, stopSequence: string, usage: string)
    | Broken

  function Opened(s: Start): Block {
    match s
    case TextStart => Text("")
    case ThinkingStart => Thinking("")
    case ToolStart(id, name) => ToolUse(id, name, "")
  }

  function Extended(b: Block, d: Delta): Option<Block> {
    match (b, d)
    case (Text(t), TextDelta(x)) => Some(Text(t + x))
    case (Thinking(t), ThinkingDelta(x)) => Some(Thinking(t + x))
    case (ToolUse(id, name, t), InputDelta(x)) => Some(ToolUse(id, name, t + x))
    case _ => None
  }

  function ReadEvent(r: Reader, e: Event): Reader {
    match e
    case MessageStart(m) => if r.Fresh? then Reading(m, [], false) else Broken
    case BlockStart(i, s) =>
      if r.Reading? && !r.open && i == |r.blocks| then Reading(r.message, r.blocks + [Opened(s)], true) else Broken
    case BlockDelta(i, d) =>
      if r.Reading? && r.open && i == |r.blocks| - 1 && Extended(r.blocks[i], d).Some? then
        Reading(r.message, r.blocks[..i] + [Extended(r.blocks[i], d).value], true)
      else Broken
    case BlockStop(i) =>
      if r.Reading? && r.open && i == |r.blocks| - 1 then Reading(r.message, r.blocks, false) else Broken
    case MessageDelta(reason, sequence, usage) =>
      if r.Reading? && !r.open then Stopping(r.message, r.blocks, reason, sequence, usage) else Broken
    case MessageStop =>
      if r.Stopping? then Finished(r.message, r.blocks, r.stopReason, r.stopSequence, r.usage) else Broken
  }

  function Read(events: seq<Event>): Reader {
    if events == [] then Fresh else ReadEvent(Read(events[..|events| - 1]), events[|events| - 1])
  }

  function ParseAll(c: Codec, texts: seq<string>): seq<Option<Event>> {
    seq(|texts|, i requires 0 <= i < |texts| => c.parse(texts[i]))
  }

  function Normals(c: Codec, events: seq<Event>): seq<Event> {
    seq(|events|, i requires 0 <= i < |events| => NormalEvent(c, events[i]))
  }

  function Somes(events: seq<Event>): seq<Option<Event>> {
    seq(|events|, i requires 0 <= i < |events| => Some(events[i]))
  }

  function NormalBlock(c: Codec, b: Block): Block {
    match b
    case Text(t) => Text(c.normal(t))
    case Thinking(t) => Thinking(c.normal(t))
    case ToolUse(id, name, input) => ToolUse(c.normal(id), c.normal(name), input)
  }

  /** What the content blocks stand for, their raw values in normal form. */
  ghost function BlocksOf(c: Codec, blocks: seq<Fields>): seq<Block>
    requires Supported(c, blocks)
  {
    seq(|blocks|, i requires 0 <= i < |blocks| => NormalBlock(c, BlockOf(c, blocks[i]).value))
  }

  lemma ReadOne(events: seq<Event>, e: Event)
    ensures Read(events + [e]) == ReadEvent(Read(events), e)
  {
    assert (events + [e])[..|events|] == events;
  }

  lemma BlockReadsBack(b: Block)
    ensures Extended(Opened(StartOf(b)), DeltaOf(b)) == Some(b)
  {
    match b
    case Text(t) => assert "" + t == t;
    case Thinking(t) => assert "" + t == t;
    case ToolUse(_, _, t) => assert "" + t == t;
  }

  lemma ReadStart(m: Fields)
    ensures Read([MessageStart(m)]) == Reading(m, [], false)
  {
    ReadOne([], MessageStart(m));
    assert [] + [MessageStart(m)] == [MessageStart(m)];
  }

  lemma BlocksOfSnoc(c: Codec, blocks: seq<Fields>)
    requires blocks != [] && Supported(c, blocks)
    ensures var n := |blocks| - 1;
            && Supported(c, blocks[..n])
            && BlocksOf(c, blocks) == BlocksOf(c, blocks[..n]) + [NormalBlock(c, BlockOf(c, blocks[n]).value)]
  {
  }

  lemma NormalsAppend(c: Codec, a: seq<Event>, b: seq<Event>)
    ensures Normals(c, a + b) == Normals(c, a) + Normals(c, b)
  {
  }

  lemma NormalTriple(c: Codec, n: nat, b: Block)
    ensures Normals(c, Triple(n, StartOf(b), DeltaOf(b))) ==
            Triple(n, StartOf(NormalBlock(c, b)), DeltaOf(NormalBlock(c, b)))
  {
  }

  lemma NormalBlocks(c: Codec, blocks: seq<Fields>)
    requires blocks != [] && Supported(c, blocks)
    ensures var n := |blocks| - 1;
            var b := NormalBlock(c, BlockOf(c, blocks[n]).value);
            Normals(c, BlockEvents(c, blocks)) ==
            Normals(c, BlockEvents(c, blocks[..n])) + Triple(n, StartOf(b), DeltaOf(b))
  {
    var n := |blocks| - 1;
    var b := BlockOf(c, blocks[n]).value;
    NormalsAppend(c, BlockEvents(c, blocks[..n]), Triple(n, StartOf(b), DeltaOf(b)));
    NormalTriple(c, n, b);
  }

  lemma {:induction false} ReadBlocks(c: Codec, m: Fields, blocks: seq<Fields>)
    requires Supported(c, blocks)
    ensures Read([MessageStart(m)] + Normals(c, BlockEvents(c, blocks))) == Reading(m, BlocksOf(c, blocks), false)
  {
    var head := [MessageStart(m)];
    if blocks == [] {
      ReadStart(m);
      assert head + [] == head;
    } else {
      var n := |blocks| - 1;
      var before := blocks[..n];
      BlocksOfSnoc(c, blocks);
      ReadBlocks(c, m, before);
      NormalBlocks(c, blocks);
      var b := NormalBlock(c, BlockOf(c, blocks[n]).value);
      Associate(head, Normals(c, BlockEvents(c, before)), Triple(n, StartOf(b), DeltaOf(b)));
      ReadBlock(head + Normals(c, BlockEvents(c, before)), m, BlocksOf(c, before), b);
    }
  }

  lemma {:induction false} ThreePerBlock(c: Codec, blocks: seq<Fields>)
    requires Supported(c, blocks)
    ensures |BlockEvents(c, blocks)| == 3 * |blocks|
  {
    if blocks == [] {
    } else {
      ThreePerBlock(c, blocks[..|blocks| - 1]);
    }
  }

  lemma ReadBlock(before: seq<Event>, m: Fields, read: seq<Block>, b: Block)
    requires Read(before) == Reading(m, read, false)
    ensures Read(before + Triple(|read|, StartOf(b), DeltaOf(b))) == Reading(m, read + [b], false)
  {
    var n := |read|;
    var e0, e1, e2 := BlockStart(n, StartOf(b)), BlockDelta(n, DeltaOf(b)), BlockStop(n);
    ReadOne(before, e0);
    ReadOne(before + [e0], e1);
    ReadOne(before + [e0] + [e1], e2);
    BlockReadsBack(b);
    assert (read + [Opened(StartOf(b))])[..n] == read;
    assert before + [e0] + [e1] + [e2] == before + Triple(n, StartOf(b), DeltaOf(b));
  }

  ghost predicate ValidEvents(c: Codec, events: seq<Event>) {
    forall i :: 0 <= i < |events| ==> ValidEvent(c, events[i])
  }

  lemma PrintedReadBack(c: Codec, events: seq<Event>)
    requires Lawful(c) && ValidEvents(c, events)
    ensures EventTexts(Output(c, events)) == Printed(c, events)
    ensures ParseAll(c, Printed(c, events)) == Somes(Normals(c, events))
  {
    FramesReadBack(Printed(c, events));
  }

  lemma {:induction false} BlockEventsValid(c: Codec, blocks: seq<Fields>)
    requires Lawful(c) && forall i :: 0 <= i < |blocks| ==> ValidFields(c, blocks[i])
    ensures ValidEvents(c, BlockEvents(c, blocks))
  {
    if blocks != [] {
      BlockEventsValid(c, blocks[..|blocks| - 1]);
    }
  }

  lemma ReplayValid(c: Codec, m: Fields, blocks: seq<Fields>)
    requires Lawful(c) && ValidFields(c, m) && forall i :: 0 <= i < |blocks| ==> ValidFields(c, blocks[i])
    ensures ValidEvents(c, Replay(c, m, blocks))
  {
    BlockEventsValid(c, blocks);
    var end := MessageDelta(Raw(m, "stop_reason"), Raw(m, "stop_sequence"), Raw(m, "usage"));
    assert ValidEvent(c, end);
    assert ValidEvent(c, MessageStart(Emptied(m)));
  }

  lemma ReplayReads(c: Codec, m: Fields, blocks: seq<Fields>)
    requires Supported(c, blocks)
    ensures Read(Normals(c, Replay(c, m, blocks))) ==
            Finished(NormalFields(c, Emptied(m)), BlocksOf(c, blocks), c.normal(Raw(m, "stop_reason")),
                     c.normal(Raw(m, "stop_sequence")), c.normal(Raw(m, "usage")))
  {
    var start := MessageStart(Emptied(m));
    var end := MessageDelta(Raw(m, "stop_reason"), Raw(m, "stop_sequence"), Raw(m, "usage"));
    var head := [NormalEvent(c, start)] + Normals(c, BlockEvents(c, blocks));
    ReadBlocks(c, NormalFields(c, Emptied(m)), blocks);
    ReadOne(head, NormalEvent(c, end));
    ReadOne(head + [NormalEvent(c, end)], MessageStop);
    NormalsAppend(c, [start] + BlockEvents(c, blocks), [end, MessageStop]);
    NormalsAppend(c, [start], BlockEvents(c, blocks));
    assert Normals(c, [start]) == [NormalEvent(c, start)];
    assert Normals(c, [end, MessageStop]) == [NormalEvent(c, end)] + [MessageStop];
    Associate(head, [NormalEvent(c, end)], [MessageStop]);
  }

  /** For every body that can be replayed: the printed stream has 3n + 3 frames, splits back into exactly the
      printed events, and is well nested with indices 0..n-1; reading it gives back the message fields and
      every block's kind, text, id, name and input. Raw values come back in normal form, inputs exactly. */
  lemma ReplayReadsBack(c: Codec, raw: string)
    requires Lawful(c) && Decoded(c, raw).Some?
    ensures var (m, blocks) := Decoded(c, raw).value;
            var events := Replay(c, m, blocks);
            var texts := EventTexts(Output(c, events));
            && |texts| == 3 * |blocks| + 3
            && ParseAll(c, texts) == Somes(Normals(c, events))
            && Read(Normals(c, events)) ==
               Finished(NormalFields(c, Emptied(m)), BlocksOf(c, blocks), c.normal(Raw(m, "stop_reason")),
                        c.normal(Raw(m, "stop_sequence")), c.normal(Raw(m, "usage")))
  {
    var (m, blocks) := Decoded(c, raw).value;
    ReplayValid(c, m, blocks);
    PrintedReadBack(c, Replay(c, m, blocks));
    ThreePerBlock(c, blocks);
    ReplayReads(c, m, blocks);
  }
}
