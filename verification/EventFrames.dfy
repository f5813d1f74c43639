/** Printing events as data frames, and when a reader of the stream gets back what was printed. */
module EventFrames {
  import opened EventLines

  /** One event on one data line, closed by a blank line. */
  function Frame(text: string): string {
    "data: " + text + "\n\n"
  }

  function Frames(texts: seq<string>): seq<string> {
    seq(|texts|, i requires 0 <= i < |texts| => Frame(texts[i]))
  }

  /** A text that the line scanner leaves in one piece. */
  predicate OneLine(text: string) {
    '\n' !in text && (text == "" || text[|text| - 1] != '\r')
  }

  ghost predicate AllOneLine(texts: seq<string>) {
    forall i :: 0 <= i < |texts| ==> OneLine(texts[i])
  }

  lemma AllOneLineAppend(a: seq<string>, b: seq<string>)
    ensures AllOneLine(a + b) <==> AllOneLine(a) && AllOneLine(b)
  {
    var s := a + b;
    if AllOneLine(s) {
      assert forall i :: 0 <= i < |a| ==> a[i] == s[i];
      assert forall i :: 0 <= i < |b| ==> b[i] == s[|a| + i];
    }
  }

  // ---- one frame in front of a body ------------------------------------------------------------

  lemma StepBehind(front: seq<seq<string>>, g: seq<seq<string>>, x: string)
    requires |g| >= 1
    ensures GroupStep(front + g, x) == front + GroupStep(g, x)
  {
    var a := front + g;
    assert a[|a| - 1] == g[|g| - 1];
    assert a[..|a| - 1] == front + g[..|g| - 1];
  }

  /** A blank line separates what is before it from what follows. */
  lemma {:induction false} GroupsAfterBlank(lines: seq<string>, rest: seq<string>)
    ensures Groups(lines + [""] + rest) == Groups(lines) + Groups(rest)
  {
    var front := lines + [""];
    if rest == [] {
      assert front + rest == front;
      GroupsSnoc(lines, "");
    } else {
      var p, x := rest[..|rest| - 1], rest[|rest| - 1];
      GroupsAfterBlank(lines, p);
      SplitLast(rest);
      Associate(front, p, [x]);
      GroupsSnoc(front + p, x);
      GroupsSnoc(p, x);
      StepBehind(Groups(lines), Groups(p), x);
    }
  }

  function DataLine(text: string): string {
    "data: " + text + "\n"
  }

  lemma ReadFirstFrame(text: string, rest: string)
    ensures EventTexts(Frame(text) + rest) == EventTexts(DataLine(text)) + EventTexts(rest)
  {
    var line, blank := DataLine(text), "" + "\n" + rest;
    assert Frame(text) + rest == line + blank;
    ScanLinesAppend(line, blank);
    LinesOfLine("", rest);
    Associate(ScanLines(line), [""], ScanLines(rest));
    GroupsAfterBlank(ScanLines(line), ScanLines(rest));
    TextsAppend(Groups(ScanLines(line)), Groups(ScanLines(rest)));
  }

  lemma FramesCons(texts: seq<string>)
    requires texts != []
    ensures Concat(Frames(texts)) == Frame(texts[0]) + Concat(Frames(texts[1..]))
  {
    assert Frames(texts)[1..] == Frames(texts[1..]);
  }

  lemma ReadFrames(texts: seq<string>)
    requires texts != []
    ensures EventTexts(Concat(Frames(texts))) ==
            EventTexts(DataLine(texts[0])) + EventTexts(Concat(Frames(texts[1..])))
  {
    FramesCons(texts);
    ReadFirstFrame(texts[0], Concat(Frames(texts[1..])));
  }

  lemma ReadNothing()
    ensures EventTexts("") == []
  {
    var none: seq<seq<string>> := [[]];
    assert Groups([]) == none;
    assert none[..0] == [];
  }

  // ---- one-line texts come back ----------------------------------------------------------------

  lemma GroupOfOne(line: string)
    requires line != ""
    ensures Groups([line]) == [[line]]
  {
    GroupsSnoc([], line);
    assert [] + [line] == [line];
  }

  lemma TextOfOne(text: string)
    ensures Texts([["data: " + text]]) == [text]
  {
    var line := "data: " + text;
    assert line[5..] == " " + text;
    assert Payload(line) == text;
    var group, groups := [line], [[line]];
    assert groups[..0] == [] && group[..0] == [];
    assert Data(group) == [text];
  }

  lemma ReadDataLine(text: string)
    requires OneLine(text)
    ensures EventTexts(DataLine(text)) == [text]
  {
    var line := "data: " + text;
    LinesOfLine(line, "");
    assert DataLine(text) + "" == DataLine(text);
    assert [line] + [] == [line];
    GroupOfOne(line);
    TextOfOne(text);
  }

  /** Reading back what was printed gives the printed texts, each one once and in order. */
  lemma {:induction false} FramesReadBack(texts: seq<string>)
    requires AllOneLine(texts)
    ensures EventTexts(Concat(Frames(texts))) == texts
  {
    if texts == [] {
      ReadNothing();
    } else {
      FramesReadBack(texts[1..]);
      ReadFrames(texts);
      ReadDataLine(texts[0]);
    }
  }

  // ---- any other text does not -----------------------------------------------------------------

  /** All characters of the texts. */
  function Weight(texts: seq<string>): nat {
    if texts == [] then 0 else Weight(texts[..|texts| - 1]) + |texts[|texts| - 1]|
  }

  function DataCost(data: seq<string>): nat {
    Weight(data) + |data|
  }

  lemma {:induction false} WeightAppend(a: seq<string>, b: seq<string>)
    ensures Weight(a + b) == Weight(a) + Weight(b)
  {
    if b == [] {
      assert a + b == a;
    } else {
      WeightAppend(a, b[..|b| - 1]);
      assert (a + b)[..|a + b| - 1] == a + b[..|b| - 1];
    }
  }

  lemma {:induction false} DataAppend(a: seq<string>, b: seq<string>)
    ensures Data(a + b) == Data(a) + Data(b)
  {
    if b == [] {
      assert a + b == a;
    } else {
      DataAppend(a, b[..|b| - 1]);
      assert (a + b)[..|a + b| - 1] == a + b[..|b| - 1];
    }
  }

  lemma DataOfOne(x: string)
    ensures Data([x]) == if IsData(x) then [Payload(x)] else []
  {
    var one := [x];
    assert one[..0] == [];
  }

  lemma {:induction false} JoinCost(data: seq<string>)
    requires data != []
    ensures |Join(data)| + 1 == DataCost(data)
  {
    if |data| == 1 {
      assert data == [data[0]];
      WeightOfOne(data[0]);
    } else {
      JoinCost(data[..|data| - 1]);
    }
  }

  /** Grouping and joining lose no payload: each text costs one more than its characters. */
  lemma {:induction false} TextsCost(groups: seq<seq<string>>)
    requires |groups| >= 1
    ensures DataCost(Texts(groups)) == DataCost(Data(Ungroup(groups)))
  {
    var init, last := groups[..|groups| - 1], groups[|groups| - 1];
    if Data(last) != [] {
      JoinCost(Data(last));
    }
    LastText(init, last);
    SplitLast(groups);
    if init == [] {
      assert Ungroup(groups) == last;
    } else {
      TextsCost(init);
      DataAppend(Ungroup(init) + [""], last);
      DataAppend(Ungroup(init), [""]);
      DataOfOne("");
      WeightAppend(Data(Ungroup(init)), Data(last));
    }
  }

  lemma LastText(init: seq<seq<string>>, last: seq<string>)
    ensures DataCost(Texts(init + [last])) ==
            DataCost(Texts(init)) + if Data(last) == [] then 0 else |Join(Data(last))| + 1
  {
    var g := init + [last];
    assert g[..|g| - 1] == init;
    if Data(last) != [] {
      WeightAppend(Texts(init), [Join(Data(last))]);
      WeightOfOne(Join(Data(last)));
    }
  }

  lemma LineCost(line: string, rest: seq<string>)
    ensures DataCost(Data([line] + rest)) == DataCost(Data(rest)) + if IsData(line) then |Payload(line)| + 1 else 0
  {
    DataAppend([line], rest);
    DataOfOne(line);
    if IsData(line) {
      WeightAppend([Payload(line)], Data(rest));
      WeightOfOne(Payload(line));
    } else {
      assert [] + Data(rest) == Data(rest);
    }
  }

  /** The payloads in a body cost less than its characters. */
  lemma {:induction false} BodyCost(body: string)
    requires body != ""
    ensures DataCost(Data(ScanLines(body))) < |body|
    decreases |body|
  {
    var first, rest := DropCR(FirstLine(body)), AfterLine(body);
    LinesCons(body);
    LineCost(first, ScanLines(rest));
    if rest != "" {
      BodyCost(rest);
    } else {
      assert ScanLines(rest) == [];
    }
  }

  /** A text is its first line and the body left after it. */
  lemma FirstOfText(text: string)
    ensures var body := text + "\n";
            body == FirstLine(body) + "\n" + AfterLine(body)
  {
    var body := text + "\n";
    IndexAtMost(body, |text|, '\n');
  }

  lemma DataLinePieces(text: string, first: string, rest: string)
    requires text + "\n" == first + "\n" + rest && '\n' !in first
    ensures ScanLines(DataLine(text)) == ["data: " + DropCR(first)] + ScanLines(rest)
  {
    Pieces("data: ", text, first, rest);
    LinesOfAny("data: " + first, rest);
    DropCRBehind("data: ", first);
  }

  lemma Pieces(lead: string, text: string, first: string, rest: string)
    requires text + "\n" == first + "\n" + rest
    ensures lead + text + "\n" == lead + first + "\n" + rest
  {
    assert lead + text + "\n" == lead + (text + "\n");
    assert lead + (first + "\n" + rest) == lead + first + "\n" + rest;
  }

  lemma DropCRBehind(lead: string, line: string)
    requires lead != "" && lead[|lead| - 1] != '\r'
    ensures DropCR(lead + line) == lead + DropCR(line)
  {
    if line == "" {
      assert lead + line == lead;
    }
  }

  /** A text that is not left in one piece is read back with characters missing. */
  lemma BrokenLoses(text: string)
    requires !OneLine(text)
    ensures Weight(EventTexts(DataLine(text))) < |text|
  {
    var first, rest := FirstLine(text + "\n"), AfterLine(text + "\n");
    FirstOfText(text);
    DataLinePieces(text, first, rest);
    var lines := ScanLines(DataLine(text));
    PayloadCost(DropCR(first), ScanLines(rest));
    GroupsPartition(lines);
    TextsCost(Groups(lines));
    assert EventTexts(DataLine(text)) != [] by {
      assert DataCost(EventTexts(DataLine(text))) > 0;
    }
    assert |text| == |first| + |rest|;
    if rest != "" {
      BodyCost(rest);
    } else {
      assert text + "\n" == first + "\n";
      assert text == (text + "\n")[..|text|] == first;
      assert ScanLines(rest) == [];
    }
  }

  lemma PayloadCost(text: string, rest: seq<string>)
    ensures DataCost(Data(["data: " + text] + rest)) == DataCost(Data(rest)) + |text| + 1
  {
    var line := "data: " + text;
    assert line[5..] == " " + text;
    LineCost(line, rest);
  }

  lemma WeightCons(texts: seq<string>)
    requires texts != []
    ensures Weight(texts) == |texts[0]| + Weight(texts[1..])
  {
    var one, rest := [texts[0]], texts[1..];
    assert texts == one + rest;
    WeightAppend(one, rest);
    WeightOfOne(texts[0]);
  }

  lemma AllOneLineCons(texts: seq<string>)
    requires texts != []
    ensures AllOneLine(texts) <==> OneLine(texts[0]) && AllOneLine(texts[1..])
  {
    var rest := texts[1..];
    assert forall i :: 0 <= i < |rest| ==> rest[i] == texts[i + 1];
    if OneLine(texts[0]) && AllOneLine(rest) {
      forall i | 0 <= i < |texts| ensures OneLine(texts[i]) {
        assert i > 0 ==> texts[i] == rest[i - 1];
      }
    }
  }

  lemma FramesWeigh(texts: seq<string>)
    requires texts != []
    ensures Weight(EventTexts(Concat(Frames(texts)))) ==
            Weight(EventTexts(DataLine(texts[0]))) + Weight(EventTexts(Concat(Frames(texts[1..]))))
  {
    ReadFrames(texts);
    WeightAppend(EventTexts(DataLine(texts[0])), EventTexts(Concat(Frames(texts[1..]))));
  }

  lemma {:induction false} ReadWeighs(texts: seq<string>)
    ensures Weight(EventTexts(Concat(Frames(texts)))) <= Weight(texts)
    ensures !AllOneLine(texts) ==> Weight(EventTexts(Concat(Frames(texts)))) < Weight(texts)
  {
    if texts == [] {
      ReadNothing();
    } else {
      ReadWeighs(texts[1..]);
      FramesWeigh(texts);
      WeightCons(texts);
      AllOneLineCons(texts);
      DataLineWeighs(texts[0]);
    }
  }

  lemma DataLineWeighs(text: string)
    ensures Weight(EventTexts(DataLine(text))) <= |text|
    ensures !OneLine(text) ==> Weight(EventTexts(DataLine(text))) < |text|
  {
    if OneLine(text) {
      ReadDataLine(text);
      WeightOfOne(text);
    } else {
      BrokenLoses(text);
    }
  }

  lemma WeightOfOne(text: string)
    ensures Weight([text]) == |text|
  {
    var one := [text];
    assert one[..0] == [];
  }

  /** Reading back gives the printed texts exactly if none of them contains a line feed or ends in a
      carriage return; otherwise characters are missing. */
  lemma ReadBackExactly(texts: seq<string>)
    ensures EventTexts(Concat(Frames(texts))) == texts <==> AllOneLine(texts)
    ensures EventTexts(Concat(Frames(texts))) != texts ==> Weight(EventTexts(Concat(Frames(texts)))) < Weight(texts)
  {
    if AllOneLine(texts) {
      FramesReadBack(texts);
    } else {
      ReadWeighs(texts);
    }
  }
}
