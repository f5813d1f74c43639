/** White space and the bracket structure of JSON object texts.

    Decoding itself is library code and stays a parameter (see `Collector.Codec`). What is needed of
    it is only that a text which decodes to an object is bracketed like one; `Run` is that check.
    `ObjectInContext` is the consequence: a complete object followed or preceded by further text
    decodes only as a part of a larger object around it.
 */
module JsonText {

  /** White space as Go's `unicode.IsSpace` has it. */
  predicate IsSpace(c: char) {
    var n := c as int;
    9 <= n <= 13 || n == 32 || n == 0x85 || n == 0xA0 || n == 0x1680 || 0x2000 <= n <= 0x200A ||
    n == 0x2028 || n == 0x2029 || n == 0x202F || n == 0x205F || n == 0x3000
  }

  predicate Blank(s: string) {
    forall i :: 0 <= i < |s| ==> IsSpace(s[i])
  }

  function TrimLeft(s: string): string {
    if s != "" && IsSpace(s[0]) then TrimLeft(s[1..]) else s
  }

  function TrimRight(s: string): string {
    if s != "" && IsSpace(s[|s| - 1]) then TrimRight(s[..|s| - 1]) else s
  }

  function Trim(s: string): string {
    TrimRight(TrimLeft(s))
  }

  predicate Trimmed(s: string) {
    s != "" && !IsSpace(s[0]) && !IsSpace(s[|s| - 1])
  }

  lemma {:induction false} TrimLeftSplit(s: string) returns (pre: string)
    ensures s == pre + TrimLeft(s) && Blank(pre)
    ensures TrimLeft(s) == "" || !IsSpace(TrimLeft(s)[0])
  {
    if s != "" && IsSpace(s[0]) {
      var p := TrimLeftSplit(s[1..]);
      pre := [s[0]] + p;
    } else {
      pre := "";
    }
  }

  lemma {:induction false} TrimRightSplit(s: string) returns (post: string)
    ensures s == TrimRight(s) + post && Blank(post)
    ensures TrimRight(s) == "" || !IsSpace(TrimRight(s)[|TrimRight(s)| - 1])
  {
    if s != "" && IsSpace(s[|s| - 1]) {
      var p := TrimRightSplit(s[..|s| - 1]);
      post := p + [s[|s| - 1]];
    } else {
      post := "";
    }
  }

  lemma TrimSplit(s: string) returns (pre: string, post: string)
    ensures s == pre + Trim(s) + post && Blank(pre) && Blank(post)
    ensures Trim(s) == "" || Trimmed(Trim(s))
  {
    pre := TrimLeftSplit(s);
    post := TrimRightSplit(TrimLeft(s));
    var t := TrimLeft(s);
    assert t == Trim(s) + post;
    if Trim(s) != "" {
      assert t[0] == Trim(s)[0];
    }
  }

  lemma {:induction false} TrimLeftBlank(pre: string, t: string)
    requires Blank(pre) && t != "" && !IsSpace(t[0])
    ensures TrimLeft(pre + t) == t
  {
    if pre == "" {
      assert pre + t == t;
    } else {
      assert (pre + t)[1..] == pre[1..] + t;
      TrimLeftBlank(pre[1..], t);
    }
  }

  lemma {:induction false} TrimRightBlank(t: string, post: string)
    requires Blank(post) && t != "" && !IsSpace(t[|t| - 1])
    ensures TrimRight(t + post) == t
  {
    if post == "" {
      assert t + post == t;
    } else {
      var s := t + post;
      assert s[..|s| - 1] == t + post[..|post| - 1];
      TrimRightBlank(t, post[..|post| - 1]);
    }
  }

  lemma TrimAround(pre: string, t: string, post: string)
    requires Blank(pre) && Blank(post) && Trimmed(t)
    ensures Trim(pre + t + post) == t
  {
    assert pre + t + post == pre + (t + post);
    TrimLeftBlank(pre, t + post);
    TrimRightBlank(t, post);
  }

  lemma {:induction false} BlankTrims(s: string)
    ensures Blank(s) <==> Trim(s) == ""
  {
    var pre, post := TrimSplit(s);
    if Trim(s) != "" {
      assert s[|pre|] == Trim(s)[0];
    }
  }

  // ---- brackets --------------------------------------------------------------------------------

  predicate IsJsonSpace(c: char) {
    c == ' ' || c == '\t' || c == '\n' || c == '\r'
  }

  /** Where a left-to-right reading of an object text stands. */
  datatype Lex = Before | Inside(depth: nat, str: bool, esc: bool) | After | Bad

  function LexStep(s: Lex, c: char): Lex {
    match s
    case Before =>
      if IsJsonSpace(c) then Before else if c == '{' then Inside(1, false, false) else Bad
    case After => if IsJsonSpace(c) then After else Bad
    case Bad => Bad
    case Inside(d, str, esc) =>
      if str then
        if c < ' ' then Bad
        else if esc then Inside(d, true, false)
        else if c == '\\' then Inside(d, true, true)
        else if c == '"' then Inside(d, false, false)
        else s
      else if c == '"' then Inside(d, true, false)
      else if c == '{' || c == '[' then Inside(d + 1, false, false)
      else if c == '}' || c == ']' then if d <= 1 then After else Inside(d - 1, false, false)
      else Inside(d, false, false)
  }

  function Run(s: Lex, t: string): Lex
    decreases t
  {
    if t == "" then s else Run(LexStep(s, t[0]), t[1..])
  }

  /** One object: brackets match, no control character inside a string, only space around it. */
  predicate ObjectText(t: string) {
    Run(Before, t) == After
  }

  lemma {:induction false} RunAppend(s: Lex, a: string, b: string)
    ensures Run(s, a + b) == Run(Run(s, a), b)
    decreases a
  {
    if a == "" {
      assert a + b == b;
    } else {
      assert (a + b)[1..] == a[1..] + b;
      RunAppend(LexStep(s, a[0]), a[1..], b);
    }
  }

  lemma {:induction false} RunBad(t: string)
    ensures Run(Bad, t) == Bad
  {
    if t == "" {
    } else {
      RunBad(t[1..]);
    }
  }

  lemma {:induction false} RunAfter(t: string)
    ensures Run(After, t) == After || Run(After, t) == Bad
    ensures Run(After, t) == After ==> Blank(t)
  {
    if t == "" {
    } else if IsJsonSpace(t[0]) {
      RunAfter(t[1..]);
      assert Blank(t[1..]) ==> Blank(t);
    } else {
      RunBad(t[1..]);
    }
  }

  lemma {:induction false} RunBefore(t: string)
    ensures Run(Before, t) == Before ==> Blank(t)
    ensures Blank(t) ==> Run(Before, t) == Before || Run(Before, t) == Bad
  {
    if t == "" {
    } else if IsJsonSpace(t[0]) {
      RunBefore(t[1..]);
      assert Blank(t[1..]) <==> Blank(t);
    } else {
      RunBad(t[1..]);
      NeverBefore(LexStep(Before, t[0]), t[1..]);
    }
  }

  lemma {:induction false} NeverBefore(s: Lex, t: string)
    requires s != Before
    ensures Run(s, t) != Before
    decreases t
  {
    if t == "" {
    } else {
      NeverBefore(LexStep(s, t[0]), t[1..]);
    }
  }

  lemma {:induction false} RunBlankInside(d: nat, t: string)
    requires Blank(t)
    ensures Run(Inside(d, false, false), t) == Inside(d, false, false)
  {
    if t == "" {
    } else {
      RunBlankInside(d, t[1..]);
    }
  }

  /** One character, seen from `k` levels further down. */
  lemma StepDeeper(d: nat, str: bool, esc: bool, k: nat, c: char)
    requires d >= 1 && k >= 1
    ensures var s := LexStep(Inside(d, str, esc), c);
            var deeper := LexStep(Inside(d + k, str, esc), c);
            && s != Before
            && (s.Inside? ==> s.depth >= 1 && deeper == Inside(s.depth + k, s.str, s.esc))
            && (s.After? ==> deeper == Inside(k, false, false))
  {
  }

  /** Reading on to the end of the enclosing object, seen from `k` levels further down. */
  lemma {:induction false} RunDeeper(d: nat, str: bool, esc: bool, k: nat, t: string)
    requires d >= 1 && k >= 1
    requires Run(Inside(d, str, esc), t) == After
    ensures Run(Inside(d + k, str, esc), t) == Inside(k, false, false)
    decreases t
  {
    assert t != "";
    StepDeeper(d, str, esc, k, t[0]);
    match LexStep(Inside(d, str, esc), t[0])
    case Inside(n, inStr, escaped) => RunDeeper(n, inStr, escaped, k, t[1..]);
    case After =>
      RunAfter(t[1..]);
      RunBlankInside(k, t[1..]);
    case Bad => RunBad(t[1..]);
  }

  lemma ObjectInside(k: nat, t: string)
    requires k >= 1 && ObjectText(t) && Trimmed(t)
    ensures t[0] == '{'
    ensures Run(Inside(k, false, false), t) == Inside(k, false, false)
  {
    RunBad(t[1..]);
    assert t[0] == '{';
    RunDeeper(1, false, false, k, t[1..]);
  }

  predicate InString(s: Lex) {
    s.Inside? && s.str
  }

  /** A line feed never leaves the reader inside a string, and white space does not open one. */
  lemma {:induction false} NoStringAfterBlank(s: Lex, t: string)
    requires !InString(s) && Blank(t)
    ensures !InString(Run(s, t))
    decreases t
  {
    if t == "" {
    } else {
      assert IsSpace(t[0]);
      NoStringAfterBlank(LexStep(s, t[0]), t[1..]);
    }
  }

  lemma NoStringAfterLine(a: string, pre: string)
    requires Blank(pre)
    ensures !InString(Run(Before, a + "\n" + pre))
  {
    RunAppend(Before, a + "\n", pre);
    RunAppend(Before, a, "\n");
    var s := Run(Before, a);
    assert Run(s, "\n") == LexStep(s, '\n');
    NoStringAfterBlank(Run(Before, a + "\n"), pre);
  }

  /** A complete object inside a larger object text has non-blank text on both sides or on neither. */
  lemma ObjectInContext(a: string, obj: string, b: string)
    requires ObjectText(obj) && Trimmed(obj)
    requires !InString(Run(Before, a))
    requires ObjectText(a + obj + b)
    ensures Blank(a) <==> Blank(b)
  {
    var s := Run(Before, a);
    RunAppend(Before, a, obj + b);
    assert a + obj + b == a + (obj + b);
    RunAppend(s, obj, b);
    RunBefore(a);
    ObjectInside(1, obj);
    match s
    case Before => RunAfter(b);
    case After => RunBad(obj[1..]); RunBad(b);
    case Bad => RunBad(obj); RunBad(b);
    case Inside(d, str, esc) =>
      if d == 0 {
        DepthPositive(Before, a);
      }
      ObjectInside(d, obj);
      InsideEsc(Before, a);
      if Blank(b) {
        RunBlankInside(d, b);
      }
  }

  lemma {:induction false} DepthPositive(s: Lex, t: string)
    requires s.Inside? ==> s.depth >= 1
    ensures Run(s, t).Inside? ==> Run(s, t).depth >= 1
    decreases t
  {
    if t == "" {
    } else {
      DepthPositive(LexStep(s, t[0]), t[1..]);
    }
  }

  lemma {:induction false} InsideEsc(s: Lex, t: string)
    requires s.Inside? && s.esc ==> s.str
    ensures Run(s, t).Inside? && Run(s, t).esc ==> Run(s, t).str
    decreases t
  {
    if t == "" {
    } else {
      InsideEsc(LexStep(s, t[0]), t[1..]);
    }
  }
}
