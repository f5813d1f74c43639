/** The upstream scanner: it forwards a response body line by line and reports whether a terminal event
    went by. The second half asks what its success means to the collector at the other end.
 */
module UpstreamScanner {
  import opened Wrappers
  import opened EventLines
  import opened JsonText
  import opened Collector

  /** A line of this many bytes, terminator not counted, no longer fits the scan buffer. */
  const MAX_TOKEN_BYTES := 1048576

  function Utf8Len(s: string): nat {
    if s == "" then 0
    else
      var n := s[0] as int;
      (if n < 0x80 then 1 else if n < 0x800 then 2 else if n < 0x10000 then 3 else 4) + Utf8Len(s[1..])
  }

  predicate Fits(raw: string) {
    Utf8Len(raw) < MAX_TOKEN_BYTES
  }

  /** How many lines come before the first one that does not fit. */
  function Fitting(raw: seq<string>): (k: nat)
    ensures k <= |raw|
    ensures forall i :: 0 <= i < k ==> Fits(raw[i])
    ensures k < |raw| ==> !Fits(raw[k])
  {
    if raw == [] || !Fits(raw[0]) then 0 else 1 + Fitting(raw[1..])
  }

  predicate IsTerminal(typ: Option<string>) {
    typ == Some("response.completed") || typ == Some("response.incomplete") || typ == Some("response.failed")
  }

  predicate TerminalLine(c: Codec, line: string) {
    IsData(line) && IsTerminal(c.scanType(Trim(line[5..])))
  }

  ghost predicate TerminalSeen(c: Codec, lines: seq<string>) {
    exists i :: 0 <= i < |lines| && TerminalLine(c, lines[i])
  }

  datatype ScanError = SendFailed | LineTooLong | ReadFailed | UnexpectedEof

  datatype Scan = Scan(sent: seq<string>, err: Option<ScanError>)

  /** What a scan sends and how it ends. `readFails` is a transport error after `body` has been read;
      `sendFails` is the number of the first line, if any, that the receiver refuses. */
  ghost function ScanOf(c: Codec, body: string, readFails: bool, sendFails: Option<nat>): Scan {
    var lines, k := ScanLines(body), Fitting(RawLines(body));
    if sendFails.Some? && sendFails.value < k then Scan(lines[..sendFails.value], Some(SendFailed))
    else
      Scan(lines[..k],
           if k < |lines| then Some(LineTooLong)
           else if readFails then Some(ReadFailed)
           else if TerminalSeen(c, lines) then None
           else Some(UnexpectedEof))
  }

  /** The scan loop. */
  method Stream(c: Codec, body: string, readFails: bool, sendFails: Option<nat>)
    returns (sent: seq<string>, err: Option<ScanError>)
    ensures Scan(sent, err) == ScanOf(c, body, readFails, sendFails)
  {
    sent := [];
    var rest := body;
    var terminalSeen := false;
    while rest != ""
      invariant Scanned(body, rest, sent)
      invariant sendFails.Some? ==> |sent| <= sendFails.value
      invariant terminalSeen <==> TerminalSeen(c, sent)
      decreases |rest|
    {
      NextLine(body, rest, sent);
      var n := IndexOf(rest, '\n');
      var raw := rest[..n];
      if Utf8Len(raw) >= MAX_TOKEN_BYTES {
        StoppedByLine(c, body, rest, sent, readFails, sendFails);
        return sent, Some(LineTooLong);
      }
      var data := DropCR(raw);
      SeenSnoc(c, sent, data);
      if "data:" <= data {
        var typ := c.scanType(Trim(data[5..]));
        if typ == Some("response.completed") || typ == Some("response.incomplete") || typ == Some("response.failed") {
          terminalSeen := true;
        }
      }
      if sendFails.Some? && sendFails.value == |sent| {
        StoppedByReceiver(c, body, rest, sent, readFails, sendFails);
        return sent, Some(SendFailed);
      }
      sent := sent + [data];
      rest := if n == |rest| then "" else rest[n + 1..];
    }
    ScannedAll(c, body, sent, readFails, sendFails);
    if readFails {
      return sent, Some(ReadFailed);
    }
    err := if terminalSeen then None else Some(UnexpectedEof);
  }

  /** What has been sent is the body up to `rest`, and all of it fits. */
  ghost predicate Scanned(body: string, rest: string, sent: seq<string>) {
    && |sent| <= Fitting(RawLines(body))
    && RawLines(body)[|sent|..] == RawLines(rest)
    && sent == ScanLines(body)[..|sent|]
  }

  lemma NextLine(body: string, rest: string, sent: seq<string>)
    requires Scanned(body, rest, sent) && rest != ""
    ensures |sent| < |ScanLines(body)|
    ensures Fits(FirstLine(rest)) <==> |sent| < Fitting(RawLines(body))
    ensures Fits(FirstLine(rest)) ==> Scanned(body, AfterLine(rest), sent + [DropCR(FirstLine(rest))])
  {
    NextRaw(RawLines(body), |sent|, FirstLine(rest), RawLines(AfterLine(rest)));
    FittingAt(RawLines(body), |sent|);
    if Fits(FirstLine(rest)) {
      ScannedLine(body, sent);
    }
  }

  lemma NextRaw(raw: seq<string>, i: nat, first: string, after: seq<string>)
    requires i <= |raw| && raw[i..] == [first] + after
    ensures i < |raw| && raw[i] == first && raw[i + 1..] == after
  {
    assert raw[i] == raw[i..][0];
    assert raw[i + 1..] == raw[i..][1..];
  }

  lemma ScannedLine(body: string, sent: seq<string>)
    requires |sent| < |ScanLines(body)| && sent == ScanLines(body)[..|sent|]
    ensures sent + [DropCR(RawLines(body)[|sent|])] == ScanLines(body)[..|sent| + 1]
  {
  }

  lemma StoppedByLine(c: Codec, body: string, rest: string, sent: seq<string>, readFails: bool, sendFails: Option<nat>)
    requires Scanned(body, rest, sent) && rest != "" && !Fits(FirstLine(rest))
    requires sendFails.Some? ==> |sent| <= sendFails.value
    ensures ScanOf(c, body, readFails, sendFails) == Scan(sent, Some(LineTooLong))
  {
    NextLine(body, rest, sent);
  }

  lemma StoppedByReceiver(c: Codec, body: string, rest: string, sent: seq<string>,
                          readFails: bool, sendFails: Option<nat>)
    requires Scanned(body, rest, sent) && rest != "" && Fits(FirstLine(rest))
    requires sendFails == Some(|sent|)
    ensures ScanOf(c, body, readFails, sendFails) == Scan(sent, Some(SendFailed))
  {
    NextLine(body, rest, sent);
  }

  lemma ScannedAll(c: Codec, body: string, sent: seq<string>, readFails: bool, sendFails: Option<nat>)
    requires Scanned(body, "", sent) && (sendFails.Some? ==> |sent| <= sendFails.value)
    ensures ScanOf(c, body, readFails, sendFails) ==
            Scan(sent, if readFails then Some(ReadFailed)
                       else if TerminalSeen(c, sent) then None
                       else Some(UnexpectedEof))
  {
    assert RawLines(body)[|sent|..] == [];
    assert sent == ScanLines(body);
  }

  lemma {:induction false} FittingAt(raw: seq<string>, i: nat)
    requires i <= Fitting(raw) && i < |raw|
    ensures Fits(raw[i]) <==> i < Fitting(raw)
  {
  }

  lemma SeenSnoc(c: Codec, lines: seq<string>, x: string)
    ensures TerminalSeen(c, lines + [x]) <==> TerminalSeen(c, lines) || TerminalLine(c, x)
  {
    var l := lines + [x];
    if i :| 0 <= i < |lines| && TerminalLine(c, lines[i]) {
      assert l[i] == lines[i];
    }
    assert l[|lines|] == x;
  }

  // ---- what the collector makes of a body the scanner accepted ---------------------------------

  /** A payload that is, on its own, a terminal event. */
  predicate TerminalText(c: Codec, payload: string) {
    IsTerminal(c.scanType(Trim(payload)))
  }

  ghost predicate AllBlank(data: seq<string>) {
    forall i :: 0 <= i < |data| ==> Blank(data[i])
  }

  /** Non-blank data on both sides of payload `j` within its group. */
  ghost predicate Sandwiched(data: seq<string>, j: nat)
    requires j < |data|
  {
    !AllBlank(data[..j]) && !AllBlank(data[j + 1..])
  }

  lemma PayloadTrim(line: string)
    requires IsData(line)
    ensures Trim(Payload(line)) == Trim(line[5..])
  {
  }

  lemma {:induction false} JoinLead(data: seq<string>)
    requires data != []
    ensures Concat(Restored(data)) == Join(data) + "\n"
  {
    var n := |data| - 1;
    var init := data[..n];
    assert Restored(data) == Restored(init) + [data[n] + "\n"];
    ConcatAppend(Restored(init), [data[n] + "\n"]);
    assert Concat([data[n] + "\n"]) == data[n] + "\n";
    if n > 0 {
      JoinLead(init);
    }
  }

  /** The text after payload `j` of a joined group. */
  function Trail(data: seq<string>): string {
    if data == [] then "" else Trail(data[..|data| - 1]) + "\n" + data[|data| - 1]
  }

  lemma {:induction false} JoinSplit(data: seq<string>, j: nat)
    requires j < |data|
    ensures Join(data) == Concat(Restored(data[..j])) + data[j] + Trail(data[j + 1..])
  {
    var n := |data| - 1;
    var init := data[..n];
    if j == n {
      if n > 0 {
        JoinLead(init);
      }
    } else {
      JoinSplit(init, j);
      assert init[..j] == data[..j];
      var t := data[j + 1..];
      assert t[..|t| - 1] == init[j + 1..];
    }
  }

  lemma {:induction false} LeadBlank(data: seq<string>)
    ensures Blank(Concat(Restored(data))) <==> AllBlank(data)
  {
    if data == [] {
    } else {
      LeadBlank(data[1..]);
      assert Restored(data)[1..] == Restored(data[1..]);
      BlankAppend(data[0] + "\n", Concat(Restored(data[1..])));
      BlankAppend(data[0], "\n");
      AllBlankAppend([data[0]], data[1..]);
      assert [data[0]] + data[1..] == data;
    }
  }

  lemma {:induction false} TrailBlank(data: seq<string>)
    ensures Blank(Trail(data)) <==> AllBlank(data)
  {
    if data == [] {
    } else {
      var n := |data| - 1;
      TrailBlank(data[..n]);
      BlankAppend(Trail(data[..n]) + "\n", data[n]);
      BlankAppend(Trail(data[..n]), "\n");
      AllBlankAppend(data[..n], [data[n]]);
      assert data[..n] + [data[n]] == data;
    }
  }

  lemma AllBlankAppend(a: seq<string>, b: seq<string>)
    ensures AllBlank(a + b) <==> AllBlank(a) && AllBlank(b)
  {
    var s := a + b;
    if AllBlank(s) {
      assert forall i :: 0 <= i < |a| ==> a[i] == s[i];
      assert forall i :: 0 <= i < |b| ==> b[i] == s[|a| + i];
    }
  }

  lemma BlankAppend(a: string, b: string)
    ensures Blank(a + b) <==> Blank(a) && Blank(b)
  {
    var s := a + b;
    if Blank(s) {
      assert forall i :: 0 <= i < |a| ==> a[i] == s[i];
      assert forall i :: 0 <= i < |b| ==> b[i] == s[|a| + i];
    }
  }

  /** In a group that decodes, a terminal event that is not sandwiched is the event of the group. */
  lemma TerminalGoverns(c: Codec, data: seq<string>, j: nat)
    requires Lawful(c)
    requires j < |data| && TerminalText(c, data[j]) && !Sandwiched(data, j)
    requires c.event(Join(data)).Some?
    ensures IsTerminal(Some(c.event(Join(data)).value.typ))
  {
    var obj := Trim(data[j]);
    var pre, post := TrimSplit(data[j]);
    var lead := Concat(Restored(data[..j]));
    var trail := Trail(data[j + 1..]);
    JoinSplit(data, j);
    Regroup(lead, pre, obj, post, trail);
    LeadNoString(data[..j], pre);
    LeadBlank(data[..j]);
    TrailBlank(data[j + 1..]);
    BlankAppend(lead, pre);
    BlankAppend(post, trail);
    DecodedAround(c, lead + pre, obj, post + trail);
  }

  lemma Regroup(a: string, b: string, c: string, d: string, e: string)
    ensures a + (b + c + d) + e == (a + b) + c + (d + e)
  {
  }

  lemma DecodedAround(c: Codec, a: string, obj: string, b: string)
    requires Lawful(c)
    requires obj == "" || Trimmed(obj)
    requires c.scanType(obj).Some? && c.scanType(obj).value != ""
    requires !InString(Run(Before, a))
    requires c.event(a + obj + b).Some?
    requires Blank(a) || Blank(b)
    ensures c.scanType(obj) == Some(c.event(a + obj + b).value.typ)
  {
    assert ObjectText(obj);
    assert obj != "" by {
      assert Run(Before, "") == Before;
    }
    ObjectInside(1, obj);
    NotNull(a, obj, b);
    ObjectInContext(a, obj, b);
    TrimAround(a, obj, b);
  }

  lemma LeadNoString(data: seq<string>, pre: string)
    requires Blank(pre)
    ensures !InString(Run(Before, Concat(Restored(data)) + pre))
  {
    if data == [] {
      assert "" + pre == pre;
      NoStringAfterBlank(Before, pre);
    } else {
      JoinLead(data);
      NoStringAfterLine(Join(data), pre);
    }
  }

  lemma NotNull(a: string, obj: string, b: string)
    requires obj != "" && obj[0] == '{'
    ensures Trim(a + obj + b) != "null"
  {
    var s := a + obj + b;
    assert s[|a|] == '{';
    SolidKept(s, |a|);
    assert '{' !in "null";
  }

  lemma SolidKept(s: string, i: nat)
    requires i < |s|
    ensures IsSpace(s[i]) || s[i] in Trim(s)
  {
    var p, q := TrimSplit(s);
    if |p| <= i < |p| + |Trim(s)| {
      assert s[i] == Trim(s)[i - |p|];
    }
  }

  lemma {:induction false} GroupText(groups: seq<seq<string>>, g: nat) returns (k: nat)
    requires g < |groups| && Data(groups[g]) != []
    ensures k < |Texts(groups)| && Texts(groups)[k] == Join(Data(groups[g]))
  {
    var n := |groups| - 1;
    if g == n {
      k := |Texts(groups[..n])|;
    } else {
      k := GroupText(groups[..n], g);
    }
  }

  lemma {:induction false} TextGroup(groups: seq<seq<string>>, k: nat) returns (g: nat)
    requires k < |Texts(groups)|
    ensures g < |groups| && Data(groups[g]) != [] && Texts(groups)[k] == Join(Data(groups[g]))
  {
    var n := |groups| - 1;
    if k < |Texts(groups[..n])| {
      g := TextGroup(groups[..n], k);
    } else {
      g := n;
    }
  }

  ghost predicate AllNeutral(c: Codec, lines: seq<string>) {
    forall g :: 0 <= g < |Groups(lines)| && Data(Groups(lines)[g]) != [] ==>
      Neutral(c, Join(Data(Groups(lines)[g])))
  }

  /** Every terminal event of the stream lies between non-blank data lines of its own group. */
  ghost predicate AllSandwiched(c: Codec, lines: seq<string>) {
    forall g, j :: 0 <= g < |Groups(lines)| && 0 <= j < |Data(Groups(lines)[g])| ==>
      TerminalText(c, Data(Groups(lines)[g])[j]) ==> Sandwiched(Data(Groups(lines)[g]), j)
  }

  /** At a clean end the collector misses a final response exactly when every group is neutral. */
  lemma EndedEarlyExactly(c: Codec, lines: seq<string>)
    ensures Collect(c, lines, Eof) == EndedEarly <==> AllNeutral(c, lines)
  {
    var gs := Groups(lines);
    var ts := Texts(gs);
    VerdictIsFirst(c, ts);
    forall i | 0 <= i < |ts| ensures DecisionAt(c, ts, i) == Continue <==> Neutral(c, ts[i]) {
      NeutralContinues(c, Items(c, ts[..i]), ts[i]);
    }
    if AllNeutral(c, lines) {
      forall i | 0 <= i < |ts| ensures Neutral(c, ts[i]) {
        var g := TextGroup(gs, i);
      }
    } else {
      var g :| 0 <= g < |gs| && Data(gs[g]) != [] && !Neutral(c, Join(Data(gs[g])));
      var k := GroupText(gs, g);
      assert DecisionAt(c, ts, k) != Continue;
    }
  }

  lemma TerminalLineReachesVerdict(c: Codec, lines: seq<string>)
    requires Lawful(c) && TerminalSeen(c, lines)
    ensures !AllSandwiched(c, lines) ==> Collect(c, lines, Eof) != EndedEarly
    ensures exists g, j :: 0 <= g < |Groups(lines)| && 0 <= j < |Data(Groups(lines)[g])| &&
                           TerminalText(c, Data(Groups(lines)[g])[j])
  {
    var gs := Groups(lines);
    var k :| 0 <= k < |lines| && TerminalLine(c, lines[k]);
    PayloadTrim(lines[k]);
    var g0, j0 := DataLineHasGroup(lines, k);
    if !AllSandwiched(c, lines) {
      var g, j :| 0 <= g < |gs| && 0 <= j < |Data(gs[g])| &&
        TerminalText(c, Data(gs[g])[j]) && !Sandwiched(Data(gs[g]), j);
      EndedEarlyExactly(c, lines);
      if c.event(Join(Data(gs[g]))).Some? {
        TerminalGoverns(c, Data(gs[g]), j);
      }
      assert !Neutral(c, Join(Data(gs[g])));
    }
  }

  /** A scan that succeeds has sent every line of the body, a terminal event among them. */
  lemma SuccessSendsAll(c: Codec, body: string, readFails: bool, sendFails: Option<nat>)
    requires ScanOf(c, body, readFails, sendFails).err == None
    ensures ScanOf(c, body, readFails, sendFails).sent == ScanLines(body)
    ensures TerminalSeen(c, ScanLines(body)) && !readFails
  {
  }

  /** When the scanner reports success, the collector can only miss the terminal event if every one is
      swallowed by a larger object around it; whenever one is not, the collector reaches a verdict. */
  lemma ScanSuccessReachesVerdict(c: Codec, body: string, readFails: bool, sendFails: Option<nat>)
    requires Lawful(c) && ScanOf(c, body, readFails, sendFails).err == None
    ensures var sent := ScanOf(c, body, readFails, sendFails).sent;
            && (!AllSandwiched(c, sent) ==> Collect(c, sent, Eof) != EndedEarly)
            && exists g, j :: 0 <= g < |Groups(sent)| && 0 <= j < |Data(Groups(sent)[g])| &&
                              TerminalText(c, Data(Groups(sent)[g])[j])
  {
    SuccessSendsAll(c, body, readFails, sendFails);
    TerminalLineReachesVerdict(c, ScanLines(body));
  }

  /** One data line to an event is enough: then scanner success always gives the collector a verdict. */
  lemma SingleLineEventsReachVerdict(c: Codec, body: string, readFails: bool, sendFails: Option<nat>)
    requires Lawful(c) && ScanOf(c, body, readFails, sendFails).err == None
    requires forall g :: 0 <= g < |Groups(ScanLines(body))| ==> |Data(Groups(ScanLines(body))[g])| <= 1
    ensures Collect(c, ScanOf(c, body, readFails, sendFails).sent, Eof) != EndedEarly
  {
    SuccessSendsAll(c, body, readFails, sendFails);
    var lines := ScanLines(body);
    TerminalLineReachesVerdict(c, lines);
    var g, j :| 0 <= g < |Groups(lines)| && 0 <= j < |Data(Groups(lines)[g])| &&
      TerminalText(c, Data(Groups(lines)[g])[j]);
    assert !Sandwiched(Data(Groups(lines)[g]), j);
  }

  // ---- a body on which the two sides disagree --------------------------------------------------

  function Quote(s: string): string {
    "\"" + s + "\""
  }

  function Field(name: string, value: string): string {
    Quote(name) + ":" + Quote(value)
  }

  const HEAD := "{" + Field("type", "response.created") + "," + Quote("response") + ":"
  const INNER := "{" + Field("type", "response.completed") + "}"
  const WHOLE := HEAD + "\n" + INNER + "\n" + "}"

  /** Decodes the two objects above and nothing else. */
  function TwoObjects(): Codec {
    Codec(
      t => if t == INNER then Some("response.completed") else if t == WHOLE then Some("response.created") else None,
      t => if t == INNER then Some(Event("response.completed", None, 0, ""))
           else if t == WHOLE then Some(Event("response.created", Some(map["type" := "\"response.completed\""]), 0, ""))
           else None,
      t => None, t => false, l => "")
  }

  predicate Plain(s: string) {
    forall i :: 0 <= i < |s| ==> s[i] >= ' ' && s[i] != '\\' && s[i] != '"'
  }

  lemma {:induction false} RunPlain(d: nat, s: string)
    requires Plain(s)
    ensures Run(Inside(d, true, false), s) == Inside(d, true, false)
  {
    if s == "" {
    } else {
      RunPlain(d, s[1..]);
    }
  }

  lemma RunQuoted(d: nat, s: string)
    requires Plain(s)
    ensures Run(Inside(d, false, false), Quote(s)) == Inside(d, false, false)
  {
    RunAppend(Inside(d, false, false), "\"" + s, "\"");
    RunAppend(Inside(d, false, false), "\"", s);
    RunPlain(d, s);
  }

  lemma RunField(d: nat, name: string, value: string)
    requires Plain(name) && Plain(value)
    ensures Run(Inside(d, false, false), Field(name, value)) == Inside(d, false, false)
  {
    RunAppend(Inside(d, false, false), Quote(name) + ":", Quote(value));
    RunAppend(Inside(d, false, false), Quote(name), ":");
    RunQuoted(d, name);
    RunQuoted(d, value);
  }

  lemma InnerIsObject()
    ensures ObjectText(INNER) && Trimmed(INNER)
  {
    RunField(1, "type", "response.completed");
    FieldsClose(Field("type", "response.completed"));
  }

  lemma FieldsClose(f: string)
    requires Run(Inside(1, false, false), f) == Inside(1, false, false)
    ensures ObjectText("{" + f + "}") && Trimmed("{" + f + "}")
  {
    RunAppend(Before, "{" + f, "}");
    RunAppend(Before, "{", f);
  }

  lemma FieldsOpen(f: string, q: string)
    requires Run(Inside(1, false, false), f) == Inside(1, false, false)
    requires Run(Inside(1, false, false), q) == Inside(1, false, false)
    ensures Run(Before, "{" + f + "," + q + ":") == Inside(1, false, false)
  {
    RunAppend(Before, "{" + f + "," + q, ":");
    RunAppend(Before, "{" + f + ",", q);
    RunAppend(Before, "{" + f, ",");
    RunAppend(Before, "{", f);
  }

  lemma HeadOpens()
    ensures Run(Before, HEAD) == Inside(1, false, false)
  {
    RunField(1, "type", "response.created");
    RunQuoted(1, "response");
    FieldsOpen(Field("type", "response.created"), Quote("response"));
  }

  /** A complete object may be the value of a field of another one, on a line of its own. */
  lemma ObjectNests(head: string, obj: string)
    requires Run(Before, head) == Inside(1, false, false)
    requires ObjectText(obj) && Trimmed(obj)
    ensures ObjectText(head + "\n" + obj + "\n" + "}")
  {
    ObjectInside(1, obj);
    RunAppend(Before, head, "\n");
    RunAppend(Before, head + "\n", obj);
    RunAppend(Before, head + "\n" + obj, "\n");
    RunAppend(Before, head + "\n" + obj + "\n", "}");
  }

  lemma TrimSpaceBefore(t: string)
    requires Trimmed(t)
    ensures Trim(t) == t && Trim(" " + t) == t
  {
    TrimAround(" ", t, "");
    TrimAround("", t, "");
    assert " " + t + "" == " " + t && "" + t + "" == t;
  }

  lemma WholeDiffers()
    ensures WHOLE != INNER
  {
    assert |WHOLE| == |HEAD| + 1 + |INNER| + 2;
  }

  lemma TwoObjectsLawful()
    ensures Lawful(TwoObjects())
  {
    InnerIsObject();
    HeadOpens();
    ObjectNests(HEAD, INNER);
    TrimSpaceBefore(INNER);
    TrimSpaceBefore(WHOLE);
    WholeDiffers();
  }

  lemma DataLine(lines: seq<string>, x: string)
    requires Groups(lines) == [lines] && IsData(x)
    ensures Groups(lines + [x]) == [lines + [x]]
    ensures Data(lines + [x]) == Data(lines) + [Payload(x)]
  {
    OpenLine(lines, x);
    assert Open(lines) == lines && Closed(lines) == [];
    assert Groups(lines + [x]) == Closed(lines + [x]) + [Open(lines + [x])];
  }

  lemma ThreeDataLines(a: string, b: string, c: string)
    requires IsData(a) && IsData(b) && IsData(c)
    ensures Groups([a, b, c, ""]) == [[a, b, c], []]
    ensures Data([a, b, c]) == [Payload(a), Payload(b), Payload(c)]
  {
    var none: seq<string> := [];
    var one := none + [a];
    var two := one + [b];
    var three := two + [c];
    assert Groups(none) == [none];
    DataLine(none, a);
    DataLine(one, b);
    DataLine(two, c);
    GroupsSnoc(three, "");
    Pushes(a, b, c, "");
    Pushes(Payload(a), Payload(b), Payload(c), "");
  }

  lemma Pushes<T>(a: T, b: T, c: T, d: T)
    ensures [] + [a] + [b] + [c] == [a, b, c]
    ensures [a, b, c] + [d] == [a, b, c, d]
  {
  }

  lemma PayloadOf(text: string)
    ensures IsData("data: " + text) && Payload("data: " + text) == text
    ensures ("data: " + text)[5..] == " " + text
  {
    assert ("data: " + text)[5..] == " " + text;
  }

  lemma JoinThree(h: string, i: string, t: string)
    ensures Join([h, i, t]) == h + "\n" + i + "\n" + t
  {
    var three, two := [h, i, t], [h, i];
    assert three[..|three| - 1] == two && two[..|two| - 1] == [h];
    assert Join([h]) == h;
    assert Join(two) == h + "\n" + i;
  }

  lemma SwallowedBy(c: Codec, h: string, i: string, t: string)
    requires IsTerminal(c.scanType(Trim(" " + i)))
    requires Neutral(c, h + "\n" + i + "\n" + t)
    ensures var lines := ["data: " + h, "data: " + i, "data: " + t, ""];
            TerminalSeen(c, lines) && Collect(c, lines, Eof) == EndedEarly
  {
    var lines := ["data: " + h, "data: " + i, "data: " + t, ""];
    PayloadOf(i);
    assert TerminalLine(c, lines[1]);
    PayloadOf(h);
    PayloadOf(t);
    ThreeDataLines(lines[0], lines[1], lines[2]);
    JoinThree(h, i, t);
    EndedEarlyExactly(c, lines);
  }

  lemma {:induction false} Utf8Bound(s: string)
    ensures Utf8Len(s) <= 4 * |s|
  {
    if s != "" {
      Utf8Bound(s[1..]);
    }
  }

  /** In a short body no line is too long. */
  lemma {:induction false} ShortBodyFits(body: string)
    requires 4 * |body| < MAX_TOKEN_BYTES
    ensures Fitting(RawLines(body)) == |RawLines(body)|
    decreases |body|
  {
    if body != "" {
      Utf8Bound(FirstLine(body));
      ShortBodyFits(AfterLine(body));
      var raw := RawLines(body);
      assert raw[1..] == RawLines(AfterLine(body));
    }
  }

  lemma FourLines(a: string, b: string, c: string)
    requires Ends(a) && Ends(b) && Ends(c)
    ensures ScanLines(a + "\n" + (b + "\n" + (c + "\n" + ("" + "\n" + "")))) == [a, b, c, ""]
  {
    var last := "" + "\n" + "";
    var two := c + "\n" + last;
    var three := b + "\n" + two;
    LinesOfLine("", "");
    LinesOfLine(c, last);
    LinesOfLine(b, two);
    LinesOfLine(a, three);
    Listed(a, b, c, "");
  }

  lemma Listed<T>(a: T, b: T, c: T, d: T)
    ensures [a] + ([b] + ([c] + ([d] + []))) == [a, b, c, d]
  {
  }

  function Body(h: string, i: string, t: string): string {
    "data: " + h + "\n" + ("data: " + i + "\n" + ("data: " + t + "\n" + ("" + "\n" + "")))
  }

  predicate Ends(s: string) {
    '\n' !in s && s != "" && s[|s| - 1] != '\r'
  }

  lemma SwallowedBody(c: Codec, h: string, i: string, t: string)
    requires Ends(h) && Ends(i) && Ends(t) && |h| + |i| + |t| < 1000
    requires IsTerminal(c.scanType(Trim(" " + i)))
    requires Neutral(c, h + "\n" + i + "\n" + t)
    ensures var scan := ScanOf(c, Body(h, i, t), false, None);
            scan.err == None && Collect(c, scan.sent, Eof) == EndedEarly
  {
    BodyLines(h, i, t);
    SwallowedBy(c, h, i, t);
    ShortScan(c, Body(h, i, t));
  }

  lemma BodyLines(h: string, i: string, t: string)
    requires Ends(h) && Ends(i) && Ends(t) && |h| + |i| + |t| < 1000
    ensures ScanLines(Body(h, i, t)) == ["data: " + h, "data: " + i, "data: " + t, ""]
    ensures |Body(h, i, t)| < 2000
  {
    FourLines("data: " + h, "data: " + i, "data: " + t);
  }

  lemma ShortScan(c: Codec, body: string)
    requires 4 * |body| < MAX_TOKEN_BYTES && TerminalSeen(c, ScanLines(body))
    ensures ScanOf(c, body, false, None) == Scan(ScanLines(body), None)
  {
    ShortBodyFits(body);
  }

  /** The scanner takes the second line for a terminal event and reports success; to the collector the three
      data lines are one event of type response.created, and the stream ends before a final response. */
  lemma TerminalEventSwallowed() returns (c: Codec, body: string)
    ensures c == TwoObjects() && body == Body(HEAD, INNER, "}")
    ensures Lawful(c)
    ensures ScanOf(c, body, false, None).err == None
    ensures Collect(c, ScanOf(c, body, false, None).sent, Eof) == EndedEarly
  {
    c := TwoObjects();
    body := Body(HEAD, INNER, "}");
    TwoObjectsLawful();
    TwoObjectsDecode();
    TwoObjectsEnd();
    SwallowedBody(c, HEAD, INNER, "}");
  }

  lemma PlainField(name: string, value: string)
    requires '\n' !in name && '\n' !in value
    ensures '\n' !in Field(name, value)
  {
  }

  lemma TwoObjectsEnd()
    ensures Ends(HEAD) && Ends(INNER) && |HEAD| + |INNER| < 900
  {
    PlainField("type", "response.created");
    PlainField("type", "response.completed");
  }

  lemma TwoObjectsDecode()
    ensures IsTerminal(TwoObjects().scanType(Trim(" " + INNER)))
    ensures Neutral(TwoObjects(), HEAD + "\n" + INNER + "\n" + "}")
  {
    assert Trim(" " + INNER) == INNER by {
      InnerIsObject();
      TrimSpaceBefore(INNER);
    }
    assert TwoObjects().event(WHOLE).value.typ == "response.created" by {
      WholeDiffers();
    }
  }
}
