/** Line splitting and the event-stream line grammar.

    Text is a sequence of characters. `ScanLines` is what a line scanner hands out, `Groups`/`Texts` is
    how a reader of the stream turns lines back into event texts.
 */
module EventLines {

  // ---- splitting a body into lines -------------------------------------------------------------

  /** The first position of `c`, or the length when it does not occur. */
  function IndexOf(s: string, c: char): (n: nat)
    ensures n <= |s| && c !in s[..n]
    ensures n < |s| ==> s[n] == c
  {
    if s == "" || s[0] == c then 0 else 1 + IndexOf(s[1..], c)
  }

  function DropCR(line: string): string {
    if line != "" && line[|line| - 1] == '\r' then line[..|line| - 1] else line
  }

  /** The pieces between line feeds; an unterminated last piece counts when it is not empty. */
  function RawLines(body: string): seq<string>
    decreases |body|
  {
    if body == "" then [] else [FirstLine(body)] + RawLines(AfterLine(body))
  }

  function FirstLine(body: string): (line: string)
    ensures '\n' !in line
  {
    body[..IndexOf(body, '\n')]
  }

  /** What is left to scan after the first line and its terminator. */
  function AfterLine(body: string): (rest: string)
    ensures body != "" ==> |rest| < |body|
  {
    var n := IndexOf(body, '\n');
    if n == |body| then "" else body[n + 1..]
  }

  function ScanLines(body: string): (ls: seq<string>)
    ensures |ls| == |RawLines(body)|
  {
    var raw := RawLines(body);
    seq(|raw|, i requires 0 <= i < |raw| => DropCR(raw[i]))
  }

  function Concat(pieces: seq<string>): string {
    if pieces == [] then "" else pieces[0] + Concat(pieces[1..])
  }

  lemma {:induction false} ConcatAppend(a: seq<string>, b: seq<string>)
    ensures Concat(a + b) == Concat(a) + Concat(b)
  {
    if a == [] {
      assert a + b == b;
    } else {
      assert (a + b)[1..] == a[1..] + b;
      ConcatAppend(a[1..], b);
    }
  }

  /** Re-emission of scanned lines: the stripped terminator is put back after each. */
  function Restored(lines: seq<string>): seq<string> {
    seq(|lines|, i requires 0 <= i < |lines| => lines[i] + "\n")
  }

  /** Every CR LF pair becomes LF; all other characters stay. */
  function CrlfToLf(s: string): string {
    if s == "" then ""
    else if |s| >= 2 && s[0] == '\r' && s[1] == '\n' then "\n" + CrlfToLf(s[2..])
    else [s[0]] + CrlfToLf(s[1..])
  }

  function Terminated(body: string): string {
    if body == "" || body[|body| - 1] == '\n' then body else body + "\n"
  }

  lemma LinesCons(body: string)
    requires body != ""
    ensures ScanLines(body) == [DropCR(FirstLine(body))] + ScanLines(AfterLine(body))
  {
  }

  lemma {:induction false} CrlfToLfLine(pre: string, rest: string)
    requires '\n' !in pre
    ensures CrlfToLf(pre + "\n" + rest) == DropCR(pre) + "\n" + CrlfToLf(rest)
  {
    var s := pre + "\n" + rest;
    if pre == "" || pre == "\r" {
      CrlfToLfEnd(pre, rest);
    } else {
      assert s[1..] == pre[1..] + "\n" + rest;
      CrlfToLfLine(pre[1..], rest);
      CrlfToLfChar(s, pre);
      DropCRTail(pre);
    }
  }

  lemma CrlfToLfEnd(pre: string, rest: string)
    requires pre == "" || pre == "\r"
    ensures CrlfToLf(pre + "\n" + rest) == "\n" + CrlfToLf(rest)
    ensures DropCR(pre) == ""
  {
    var s := pre + "\n" + rest;
    if pre == "" {
      assert s[1..] == rest;
    } else {
      assert s[2..] == rest;
    }
  }

  lemma CrlfToLfChar(s: string, pre: string)
    requires pre != "" && pre != "\r" && pre <= s && '\n' !in pre
    ensures CrlfToLf(s) == [pre[0]] + CrlfToLf(s[1..])
  {
    assert s[0] == pre[0];
    if |pre| == 1 {
      assert pre == [pre[0]];
    } else {
      assert s[1] == pre[1];
      assert pre[1] in pre;
    }
  }

  lemma DropCRTail(pre: string)
    requires pre != "" && pre != "\r"
    ensures DropCR(pre) == [pre[0]] + DropCR(pre[1..])
  {
    if |pre| == 1 {
      assert pre == [pre[0]];
    }
  }

  lemma RestoredCons(line: string, lines: seq<string>)
    ensures Concat(Restored([line] + lines)) == line + "\n" + Concat(Restored(lines))
  {
    var r := Restored([line] + lines);
    assert r[0] == line + "\n";
    assert r[1..] == Restored(lines);
  }

  lemma TerminatedLine(body: string)
    requires body != ""
    ensures Terminated(body) == FirstLine(body) + "\n" + Terminated(AfterLine(body))
  {
    var n := IndexOf(body, '\n');
    if n == |body| {
      assert body[..n] == body;
      assert body + "\n" + "" == body + "\n";
    } else {
      var rest := body[n + 1..];
      assert body == body[..n] + "\n" + rest;
      assert body[..n] + "\n" + (rest + "\n") == body + "\n";
      assert rest != "" ==> rest[|rest| - 1] == body[|body| - 1];
    }
  }

  /** Scanning and re-emitting normalises line ends and nothing else. */
  lemma {:induction false} ScanThenEmit(body: string)
    ensures Concat(Restored(ScanLines(body))) == CrlfToLf(Terminated(body))
    decreases |body|
  {
    if body != "" {
      var rest := AfterLine(body);
      ScanThenEmit(rest);
      LinesCons(body);
      RestoredCons(DropCR(FirstLine(body)), ScanLines(rest));
      TerminatedLine(body);
      CrlfToLfLine(FirstLine(body), Terminated(rest));
    }
  }

  lemma {:induction false} NoCrUnchanged(s: string)
    requires '\r' !in s
    ensures CrlfToLf(s) == s
  {
    if s == "" {
    } else {
      NoCrUnchanged(s[1..]);
    }
  }

  /** A body whose lines all end in a bare LF passes through unchanged. */
  lemma PassThroughIdentity(body: string)
    requires '\r' !in body
    requires body == "" || body[|body| - 1] == '\n'
    ensures Concat(Restored(ScanLines(body))) == body
  {
    ScanThenEmit(body);
    NoCrUnchanged(body);
  }

  // ---- from lines to event texts ---------------------------------------------------------------

  /** Lines are grouped at blank lines; the last group is the one still open at the end. */
  function Groups(lines: seq<string>): (g: seq<seq<string>>)
    ensures |g| >= 1
  {
    if lines == [] then [[]]
    else GroupStep(Groups(lines[..|lines| - 1]), lines[|lines| - 1])
  }

  function GroupStep(g: seq<seq<string>>, x: string): (h: seq<seq<string>>)
    requires |g| >= 1
    ensures |h| >= 1
  {
    if x == "" then g + [[]] else g[..|g| - 1] + [g[|g| - 1] + [x]]
  }

  /** The groups closed by a blank line. */
  function Closed(lines: seq<string>): seq<seq<string>> {
    var g := Groups(lines);
    g[..|g| - 1]
  }

  function Open(lines: seq<string>): seq<string> {
    var g := Groups(lines);
    g[|g| - 1]
  }

  /** Puts groups back together with a blank line between neighbours. */
  function Ungroup(groups: seq<seq<string>>): seq<string>
    requires |groups| >= 1
  {
    if |groups| == 1 then groups[0]
    else Ungroup(groups[..|groups| - 1]) + [""] + groups[|groups| - 1]
  }

  lemma GroupsSnoc(lines: seq<string>, x: string)
    ensures Groups(lines + [x]) == GroupStep(Groups(lines), x)
  {
    var l := lines + [x];
    assert l[..|l| - 1] == lines;
  }

  lemma UngroupBlank(groups: seq<seq<string>>)
    requires |groups| >= 1
    ensures Ungroup(groups + [[]]) == Ungroup(groups) + [""]
  {
    var h := groups + [[]];
    assert h[..|h| - 1] == groups;
  }

  lemma UngroupLine(init: seq<seq<string>>, last: seq<string>, x: string)
    ensures Ungroup(init + [last + [x]]) == Ungroup(init + [last]) + [x]
  {
    var g, h := init + [last], init + [last + [x]];
    if init != [] {
      assert g[..|g| - 1] == init && h[..|h| - 1] == init;
      assert Ungroup(init) + [""] + (last + [x]) == Ungroup(init) + [""] + last + [x];
    }
  }

  ghost predicate BlankFree(groups: seq<seq<string>>) {
    forall i :: 0 <= i < |groups| ==> "" !in groups[i]
  }

  lemma GroupsRestore(lines: seq<string>, x: string)
    requires Ungroup(Groups(lines)) == lines && BlankFree(Groups(lines))
    ensures Ungroup(Groups(lines + [x])) == lines + [x]
    ensures BlankFree(Groups(lines + [x]))
  {
    if x == "" {
      GroupsSnoc(lines, "");
      UngroupBlank(Groups(lines));
    } else {
      GroupsSnoc(lines, x);
      SplitLast(Groups(lines));
      UngroupLine(Closed(lines), Open(lines), x);
      BlankFreeLine(Closed(lines), Open(lines), x);
    }
  }

  lemma SplitLast<T>(s: seq<T>)
    requires s != []
    ensures s == s[..|s| - 1] + [s[|s| - 1]]
  {
  }

  lemma BlankFreeLine(init: seq<seq<string>>, last: seq<string>, x: string)
    requires BlankFree(init + [last]) && x != ""
    ensures BlankFree(init + [last + [x]])
  {
    var g, h := init + [last], init + [last + [x]];
    assert g[|init|] == last;
    forall i | 0 <= i < |h| ensures "" !in h[i] {
      assert i < |init| ==> h[i] == g[i];
    }
  }

  /** `Groups` is the one division of the lines into blank-free groups. */
  lemma {:induction false} GroupsPartition(lines: seq<string>)
    ensures Ungroup(Groups(lines)) == lines
    ensures BlankFree(Groups(lines))
  {
    if lines != [] {
      GroupsPartition(lines[..|lines| - 1]);
      SplitLast(lines);
      GroupsRestore(lines[..|lines| - 1], lines[|lines| - 1]);
    }
  }

  lemma {:induction false} GroupsUnique(groups: seq<seq<string>>)
    requires |groups| >= 1 && BlankFree(groups)
    ensures Groups(Ungroup(groups)) == groups
    decreases |groups|, |groups[|groups| - 1]|
  {
    var last := groups[|groups| - 1];
    var init := groups[..|groups| - 1];
    SplitLast(groups);
    if last != [] {
      var x := last[|last| - 1];
      var shorter := init + [last[..|last| - 1]];
      SplitLast(last);
      assert x in groups[|groups| - 1];
      GroupsUnique(shorter);
      UngroupLine(init, last[..|last| - 1], x);
      GroupsSnoc(Ungroup(shorter), x);
      assert shorter[..|shorter| - 1] == init;
    } else if init != [] {
      GroupsUnique(init);
      UngroupBlank(init);
      GroupsSnoc(Ungroup(init), "");
    }
  }

  predicate IsData(line: string) {
    "data:" <= line
  }

  /** What follows `data:`, less one leading space. */
  function Payload(line: string): string
    requires IsData(line)
  {
    var p := line[5..];
    if " " <= p then p[1..] else p
  }

  /** The payloads of the data lines of a group, in order; other lines are ignored. */
  function Data(group: seq<string>): seq<string> {
    if group == [] then []
    else
      var d := Data(group[..|group| - 1]);
      var x := group[|group| - 1];
      if IsData(x) then d + [Payload(x)] else d
  }

  function Join(data: seq<string>): string {
    if data == [] then ""
    else if |data| == 1 then data[0]
    else Join(data[..|data| - 1]) + "\n" + data[|data| - 1]
  }

  /** The event texts of a sequence of groups; a group without data lines carries none. */
  function Texts(groups: seq<seq<string>>): seq<string> {
    if groups == [] then []
    else
      var t := Texts(groups[..|groups| - 1]);
      var d := Data(groups[|groups| - 1]);
      if d == [] then t else t + [Join(d)]
  }

  /** The event texts that a body carries. */
  function EventTexts(body: string): seq<string> {
    Texts(Groups(ScanLines(body)))
  }

  lemma {:induction false} TextsAppend(a: seq<seq<string>>, b: seq<seq<string>>)
    ensures Texts(a + b) == Texts(a) + Texts(b)
  {
    if b == [] {
      assert a + b == a;
    } else {
      var c := a + b;
      assert c[..|c| - 1] == a + b[..|b| - 1];
      TextsAppend(a, b[..|b| - 1]);
    }
  }

  /** Lines already closed by a blank line keep their groups whatever follows. */
  lemma {:induction false} GroupsExtend(lines: seq<string>, more: seq<string>)
    ensures Closed(lines) <= Closed(lines + more)
    ensures |Closed(lines)| <= |Groups(lines + more)|
  {
    if more == [] {
      assert lines + more == lines;
    } else {
      var l := lines + more;
      assert l[..|l| - 1] == lines + more[..|more| - 1];
      GroupsExtend(lines, more[..|more| - 1]);
    }
  }

  lemma {:induction false} ClosedBlank(lines: seq<string>)
    ensures Closed(lines + [""]) == Groups(lines)
    ensures Open(lines + [""]) == []
  {
    GroupsSnoc(lines, "");
  }

  lemma {:induction false} OpenLine(lines: seq<string>, x: string)
    requires x != ""
    ensures Closed(lines + [x]) == Closed(lines)
    ensures Open(lines + [x]) == Open(lines) + [x]
    ensures Data(Open(lines + [x])) == if IsData(x) then Data(Open(lines)) + [Payload(x)] else Data(Open(lines))
  {
    GroupsSnoc(lines, x);
    var g := Groups(lines);
    assert Groups(lines + [x])[..|g| - 1] == g[..|g| - 1];
    var o := Open(lines) + [x];
    assert o[..|o| - 1] == Open(lines);
  }

  /** Every data line shows up in the data of some group. */
  lemma {:induction false} DataLineHasGroup(lines: seq<string>, k: nat) returns (g: nat, j: nat)
    requires k < |lines| && IsData(lines[k])
    ensures g < |Groups(lines)|
    ensures j < |Data(Groups(lines)[g])|
    ensures Data(Groups(lines)[g])[j] == Payload(lines[k])
  {
    var p := lines[..|lines| - 1];
    var x := lines[|lines| - 1];
    assert lines == p + [x];
    if k == |p| {
      OpenLine(p, x);
      g := |Groups(lines)| - 1;
      j := |Data(Open(p))|;
    } else {
      g, j := DataLineHasGroup(p, k);
      if x == "" {
        ClosedBlank(p);
      } else {
        OpenLine(p, x);
        if g == |Groups(p)| - 1 {
          assert Groups(lines)[g] == Open(lines);
        } else {
          assert Groups(lines)[g] == Closed(lines)[g] == Closed(p)[g];
        }
      }
    }
  }

  lemma {:induction false} IndexOfAt(s: string, n: nat, c: char)
    requires n < |s| && s[n] == c && c !in s[..n]
    ensures IndexOf(s, c) == n
  {
    if n == 0 {
    } else {
      assert s[0] in s[..n];
      assert s[1..][..n - 1] == s[..n][1..];
      IndexOfAt(s[1..], n - 1, c);
    }
  }

  lemma {:induction false} IndexAtMost(s: string, k: nat, c: char)
    requires k < |s| && s[k] == c
    ensures IndexOf(s, c) <= k
  {
    if k > 0 {
      IndexAtMost(s[1..], k - 1, c);
    }
  }

  lemma LinesOfAny(line: string, rest: string)
    requires '\n' !in line
    ensures ScanLines(line + "\n" + rest) == [DropCR(line)] + ScanLines(rest)
  {
    var s := line + "\n" + rest;
    assert s[..|line|] == line;
    IndexOfAt(s, |line|, '\n');
    LinesCons(s);
    assert s[|line| + 1..] == rest;
  }

  lemma LinesOfLine(line: string, rest: string)
    requires '\n' !in line
    requires line == "" || line[|line| - 1] != '\r'
    ensures ScanLines(line + "\n" + rest) == [line] + ScanLines(rest)
  {
    LinesOfAny(line, rest);
  }

  /** Text that ends with a line feed, or is empty, is scanned on its own. */
  lemma {:induction false} ScanLinesAppend(a: string, b: string)
    requires a == "" || a[|a| - 1] == '\n'
    ensures ScanLines(a + b) == ScanLines(a) + ScanLines(b)
    decreases |a|
  {
    if a == "" {
      assert a + b == b;
    } else {
      FirstOfAppend(a, b);
      ScanLinesAppend(AfterLine(a), b);
      LinesCons(a);
      LinesCons(a + b);
      Associate([DropCR(FirstLine(a))], ScanLines(AfterLine(a)), ScanLines(b));
    }
  }

  lemma Associate<T>(a: seq<T>, b: seq<T>, c: seq<T>)
    ensures a + b + c == a + (b + c)
  {
  }

  lemma FirstOfAppend(a: string, b: string)
    requires a != "" && a[|a| - 1] == '\n'
    ensures FirstLine(a + b) == FirstLine(a) && AfterLine(a + b) == AfterLine(a) + b
    ensures AfterLine(a) == "" || AfterLine(a)[|AfterLine(a)| - 1] == '\n'
  {
    var n := IndexOf(a, '\n');
    IndexAtMost(a, |a| - 1, '\n');
    assert (a + b)[..n] == a[..n];
    IndexOfAt(a + b, n, '\n');
  }
}
