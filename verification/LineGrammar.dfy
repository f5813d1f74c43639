/** The line grammar told from bodies alone: what a data line carries, what a block of lines means, and what
    line ends become.
 */
module LineGrammar {
  import opened EventLines
  import opened EventFrames

  /** A line of its own: no line feed in it, and no carriage return that the scanner would take off. */
  predicate Clean(line: string) {
    line != "" && '\n' !in line && line[|line| - 1] != '\r'
  }

  ghost predicate AllClean(lines: seq<string>) {
    forall i :: 0 <= i < |lines| ==> Clean(lines[i])
  }

  /** A line carries data exactly if it starts with the five characters; one space after them is dropped. */
  lemma DataLineCarries(line: string, x: string)
    ensures Data(["data:" + x]) == [if x != "" && x[0] == ' ' then x[1..] else x]
    ensures !("data:" <= line) ==> Data([line]) == []
  {
    DataOfOne(line);
    DataOfOne("data:" + x);
    assert ("data:" + x)[5..] == x;
    assert (" " <= x) <==> (x != "" && x[0] == ' ');
  }

  /** The payloads of the lines are joined by line feeds, in order. */
  lemma JoinedByLineFeeds(data: seq<string>, x: string)
    ensures Join([x]) == x
    ensures data != [] ==> Join(data + [x]) == Join(data) + "\n" + x
  {
    assert (data + [x])[..|data|] == data;
  }

  lemma {:induction false} CleanLinesScan(lines: seq<string>, rest: string)
    requires AllClean(lines)
    ensures ScanLines(Concat(Restored(lines)) + rest) == lines + ScanLines(rest)
  {
    if lines == [] {
      assert Restored(lines) == [];
      assert "" + rest == rest;
    } else {
      var tail := lines[1..];
      assert lines == [lines[0]] + tail;
      RestoredCons(lines[0], tail);
      CleanLinesScan(tail, rest);
      Regrouped(lines[0], Concat(Restored(tail)), rest);
      LinesOfLine(lines[0], Concat(Restored(tail)) + rest);
      Associate([lines[0]], tail, ScanLines(rest));
    }
  }

  lemma Regrouped(line: string, tail: string, rest: string)
    ensures line + "\n" + tail + rest == line + "\n" + (tail + rest)
  {
  }

  lemma {:induction false} OneGroup(lines: seq<string>)
    requires AllClean(lines)
    ensures Groups(lines) == [lines]
  {
    if lines == [] {
    } else {
      var before, x := lines[..|lines| - 1], lines[|lines| - 1];
      OneGroup(before);
      SplitLast(lines);
      GroupsSnoc(before, x);
      StepOfOne(before, x);
    }
  }

  lemma StepOfOne(group: seq<string>, x: string)
    requires x != ""
    ensures GroupStep([group], x) == [group + [x]]
  {
    var g := [group];
    assert g[..|g| - 1] == [];
  }

  /** What a block of lines means: one event, the joined data of the block, or none if it has no data. */
  function BlockTexts(lines: seq<string>): seq<string> {
    if Data(lines) == [] then [] else [Join(Data(lines))]
  }

  lemma TextsOfOneGroup(lines: seq<string>)
    ensures Texts([lines]) == BlockTexts(lines)
  {
    var one := [lines];
    assert one[..0] == [];
  }

  /** A block closed by a blank line is read on its own, in front of whatever follows. */
  lemma BlockReads(lines: seq<string>, rest: string)
    requires AllClean(lines)
    ensures EventTexts(Concat(Restored(lines)) + ("\n" + rest)) == BlockTexts(lines) + EventTexts(rest)
  {
    CleanLinesScan(lines, "\n" + rest);
    BlankLineScans(rest);
    BlockTextsFirst(lines, ScanLines(rest));
  }

  lemma BlankLineScans(rest: string)
    ensures ScanLines("\n" + rest) == [""] + ScanLines(rest)
  {
    LinesOfLine("", rest);
    assert "" + "\n" + rest == "\n" + rest;
  }

  lemma BlockTextsFirst(lines: seq<string>, rest: seq<string>)
    requires AllClean(lines)
    ensures Texts(Groups(lines + ([""] + rest))) == BlockTexts(lines) + Texts(Groups(rest))
  {
    Associate(lines, [""], rest);
    GroupsAfterBlank(lines, rest);
    OneGroup(lines);
    TextsAppend([lines], Groups(rest));
    TextsOfOneGroup(lines);
  }

  /** A block still open at the end of the body counts all the same. */
  lemma OpenBlockReads(lines: seq<string>)
    requires AllClean(lines)
    ensures EventTexts(Concat(Restored(lines))) == BlockTexts(lines)
  {
    CleanLinesScan(lines, "");
    assert Concat(Restored(lines)) + "" == Concat(Restored(lines));
    assert lines + [] == lines;
    OneGroup(lines);
    TextsOfOneGroup(lines);
  }

  // ---- line ends -------------------------------------------------------------------------------

  predicate CrLfAt(s: string, i: int) {
    0 <= i < |s| - 1 && s[i] == '\r' && s[i + 1] == '\n'
  }

  ghost predicate HasCrLf(s: string) {
    exists i :: CrLfAt(s, i)
  }

  lemma TailHasNone(a: string)
    requires a != "" && !HasCrLf(a)
    ensures !HasCrLf(a[1..])
  {
    forall i ensures !CrLfAt(a[1..], i) {
      assert !CrLfAt(a, i + 1);
    }
  }

  lemma FirstStays(a: string, more: string)
    requires a != "" && !HasCrLf(a) && (more == "" || more[0] != '\n')
    ensures CrlfToLf(a + more) == [a[0]] + CrlfToLf(a[1..] + more)
  {
    var s := a + more;
    assert !CrLfAt(a, 0);
    assert s[1..] == a[1..] + more;
  }

  /** Text before a CR LF pair stays, the pair becomes a line feed, and so on behind it. */
  lemma {:induction false} CrLfBecomesLf(a: string, b: string)
    requires !HasCrLf(a)
    ensures CrlfToLf(a + ("\r\n" + b)) == a + ("\n" + CrlfToLf(b))
  {
    var pair := "\r\n" + b;
    if a == "" {
      assert a + pair == pair && pair[2..] == b;
      assert a + ("\n" + CrlfToLf(b)) == "\n" + CrlfToLf(b);
    } else {
      TailHasNone(a);
      FirstStays(a, pair);
      CrLfBecomesLf(a[1..], b);
      HeadBack(a, "\n" + CrlfToLf(b));
    }
  }

  lemma HeadBack(a: string, more: string)
    requires a != ""
    ensures [a[0]] + (a[1..] + more) == a + more
  {
  }

  lemma {:induction false} NoPairUnchanged(a: string)
    requires !HasCrLf(a)
    ensures CrlfToLf(a) == a
  {
    if a != "" {
      TailHasNone(a);
      NoPairUnchanged(a[1..]);
      FirstStays(a, "");
      assert a + "" == a && a[1..] + "" == a[1..];
    }
  }

  /** A body without carriage returns that does not end in a line feed gets one, and is otherwise unchanged. */
  lemma UnterminatedGetsLineFeed(body: string)
    requires '\r' !in body && body != "" && body[|body| - 1] != '\n'
    ensures Concat(Restored(ScanLines(body))) == body + "\n"
  {
    ScanThenEmit(body);
    assert '\r' !in body + "\n";
    NoCrUnchanged(body + "\n");
  }

  /** Lines that end in CR LF are re-emitted with a line feed alone. */
  lemma CrLfLinesPass(line: string, rest: string)
    requires Clean(line)
    ensures Concat(Restored(ScanLines(line + "\r\n" + rest))) == line + "\n" + Concat(Restored(ScanLines(rest)))
  {
    var raw := line + "\r";
    assert raw[..|raw| - 1] == line && DropCR(raw) == line;
    assert line + "\r\n" + rest == raw + "\n" + rest;
    LinesOfAny(raw, rest);
    RestoredCons(line, ScanLines(rest));
  }
}
