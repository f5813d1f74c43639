/** When the upstream scanner reports success, told from the body and the event types on its lines alone. */
module ScanAnswers {
  import opened Wrappers
  import opened EventLines
  import opened JsonText
  import opened UpstreamScanner
  import Collector

  /** A data line that is, on its own, an event after which the stream may end. */
  predicate EndsStream(c: Collector.Codec, line: string) {
    "data:" <= line &&
    var typ := c.scanType(Trim(line[5..]));
    typ == Some("response.completed") || typ == Some("response.incomplete") || typ == Some("response.failed")
  }

  /** Success takes a whole body that was sent whole, each line shorter than a mebibyte, and a line that may
      end the stream. */
  lemma SuccessExactly(c: Collector.Codec, body: string, readFails: bool, sendFails: Option<nat>)
    ensures ScanOf(c, body, readFails, sendFails).err == None <==>
            && !readFails
            && (forall i :: 0 <= i < |RawLines(body)| ==> Utf8Len(RawLines(body)[i]) < 1048576)
            && (sendFails.Some? ==> sendFails.value >= |RawLines(body)|)
            && (exists i :: 0 <= i < |ScanLines(body)| && EndsStream(c, ScanLines(body)[i]))
    ensures ScanOf(c, body, readFails, sendFails).err == None ==>
              ScanOf(c, body, readFails, sendFails).sent == ScanLines(body)
  {
    FitsExactly(RawLines(body));
    SeenExactly(c, ScanLines(body));
  }

  lemma FitsExactly(raw: seq<string>)
    ensures Fitting(raw) == |raw| <==> forall i :: 0 <= i < |raw| ==> Utf8Len(raw[i]) < 1048576
  {
  }

  lemma SeenExactly(c: Collector.Codec, lines: seq<string>)
    ensures TerminalSeen(c, lines) <==> exists i :: 0 <= i < |lines| && EndsStream(c, lines[i])
  {
    forall i | 0 <= i < |lines| ensures TerminalLine(c, lines[i]) <==> EndsStream(c, lines[i]) {
    }
    if i :| 0 <= i < |lines| && EndsStream(c, lines[i]) {
      assert TerminalLine(c, lines[i]);
    }
  }

  /** The first line that is too long ends the scan, however short the others are, unless a line before it was
      refused. */
  lemma LongLineStops(c: Collector.Codec, body: string, readFails: bool, sendFails: Option<nat>, k: nat)
    requires k < |RawLines(body)| && Utf8Len(RawLines(body)[k]) >= 1048576
    requires forall i :: 0 <= i < k ==> Utf8Len(RawLines(body)[i]) < 1048576
    ensures ScanOf(c, body, readFails, sendFails) ==
            if sendFails.Some? && sendFails.value < k then Scan(ScanLines(body)[..sendFails.value], Some(SendFailed))
            else Scan(ScanLines(body)[..k], Some(LineTooLong))
  {
    FirstUnfit(RawLines(body), k);
  }

  /** Without a line that is too long: a refused line ends the scan there, and otherwise all lines are sent and
      a failed read is told from a body that merely ends too soon. */
  lemma ShortLinesAnswer(c: Collector.Codec, body: string, readFails: bool, sendFails: Option<nat>)
    requires forall i :: 0 <= i < |RawLines(body)| ==> Utf8Len(RawLines(body)[i]) < 1048576
    ensures var lines := ScanLines(body);
            var r := ScanOf(c, body, readFails, sendFails);
            if sendFails.Some? && sendFails.value < |lines| then
              r == Scan(lines[..sendFails.value], Some(SendFailed))
            else
              && r.sent == lines
              && (readFails ==> r.err == Some(ReadFailed))
              && (!readFails && (forall i :: 0 <= i < |lines| ==> !EndsStream(c, lines[i])) ==>
                    r.err == Some(UnexpectedEof))
  {
    FitsExactly(RawLines(body));
    SeenExactly(c, ScanLines(body));
  }

  lemma {:induction false} FirstUnfit(raw: seq<string>, k: nat)
    requires k < |raw| && Utf8Len(raw[k]) >= 1048576
    requires forall i :: 0 <= i < k ==> Utf8Len(raw[i]) < 1048576
    ensures Fitting(raw) == k
  {
    if k > 0 {
      assert Utf8Len(raw[0]) < 1048576;
      forall i | 0 <= i < k - 1 ensures Utf8Len(raw[1..][i]) < 1048576 {
        assert raw[1..][i] == raw[i + 1];
      }
      FirstUnfit(raw[1..], k - 1);
    }
  }

  /** The length counts the bytes of each character, one to four. */
  lemma {:induction false} Utf8LenAppend(a: string, b: string)
    ensures Utf8Len(a + b) == Utf8Len(a) + Utf8Len(b)
  {
    if a == "" {
      assert a + b == b;
    } else {
      assert (a + b)[1..] == a[1..] + b;
      Utf8LenAppend(a[1..], b);
    }
  }

  /** The bytes one character takes in UTF-8, section 3 of RFC 3629. */
  lemma Utf8LenOfOne(ch: char)
    ensures ch < '\U{0080}' ==> Utf8Len([ch]) == 1
    ensures '\U{0080}' <= ch < '\U{0800}' ==> Utf8Len([ch]) == 2
    ensures '\U{0800}' <= ch < '\U{10000}' ==> Utf8Len([ch]) == 3
    ensures '\U{10000}' <= ch ==> Utf8Len([ch]) == 4
  {
    var s := [ch];
    assert s[1..] == "";
  }
}
