/** Python string operations the runner relies on: whitespace, line boundaries,
    strip, splitlines, join, and the decimal notation of str(int) and int(str). */
module Text {

  datatype Option<+T> = None | Some(value: T)

  const NL := "\n"

  /** str.isspace for one character. */
  predicate IsSpace(c: char) {
    var n := c as int;
    || 9 <= n <= 13 || 28 <= n <= 32 || n == 0x85 || n == 0xA0 || n == 0x1680
    || 0x2000 <= n <= 0x200A || n == 0x2028 || n == 0x2029 || n == 0x202F || n == 0x205F || n == 0x3000
  }

  /** The characters str.splitlines treats as line boundaries. */
  predicate IsBreak(c: char) {
    var n := c as int;
    10 <= n <= 13 || 28 <= n <= 30 || n == 0x85 || n == 0x2028 || n == 0x2029
  }

  predicate OneLine(s: string) {
    forall k :: 0 <= k < |s| ==> !IsBreak(s[k])
  }

  predicate Blank(s: string) {
    forall k :: 0 <= k < |s| ==> IsSpace(s[k])
  }

  predicate Tight(s: string) {
    s == "" || (!IsSpace(s[0]) && !IsSpace(s[|s| - 1]))
  }

  function LStrip(s: string): (r: string)
    ensures r == "" || !IsSpace(r[0])
    ensures |r| <= |s|
    ensures r != "" ==> r[|r| - 1] == s[|s| - 1]
  {
    if s != "" && IsSpace(s[0]) then LStrip(s[1..]) else s
  }

  function RStrip(s: string): (r: string)
    ensures r == "" || !IsSpace(r[|r| - 1])
    ensures |r| <= |s|
  {
    if s != "" && IsSpace(s[|s| - 1]) then RStrip(s[..|s| - 1]) else s
  }

  /** str.strip(). */
  function Strip(s: string): (r: string)
    ensures Tight(r)
    ensures |r| <= |s|
  {
    LStrip(RStrip(s))
  }

  lemma {:induction false} StripTight(s: string)
    requires Tight(s)
    ensures Strip(s) == s && RStrip(s) == s
  {}

  lemma {:induction false} LStripOneLine(s: string)
    requires OneLine(s)
    ensures OneLine(LStrip(s))
  {
    if s != "" && IsSpace(s[0]) {
      assert forall k :: 0 <= k < |s| - 1 ==> s[1..][k] == s[k + 1];
      LStripOneLine(s[1..]);
    }
  }

  lemma {:induction false} RStripOneLine(s: string)
    requires OneLine(s)
    ensures OneLine(RStrip(s))
  {
    if s != "" && IsSpace(s[|s| - 1]) {
      RStripOneLine(s[..|s| - 1]);
    }
  }

  lemma {:induction false} StripOneLine(s: string)
    requires OneLine(s)
    ensures OneLine(Strip(s))
  {
    RStripOneLine(s);
    LStripOneLine(RStrip(s));
  }

  /** Index of the first line boundary at or after i, or the length. */
  function BreakFrom(s: string, i: nat): (e: nat)
    requires i <= |s|
    ensures i <= e <= |s|
    ensures e < |s| ==> IsBreak(s[e])
    decreases |s| - i
  {
    if i == |s| || IsBreak(s[i]) then i else BreakFrom(s, i + 1)
  }

  /** Index of the first line boundary, or the length. */
  function LineEnd(s: string): nat { BreakFrom(s, 0) }

  lemma {:induction false} BreakFromIsFirst(s: string, i: nat)
    requires i <= |s|
    ensures forall k :: i <= k < BreakFrom(s, i) ==> !IsBreak(s[k])
    decreases |s| - i
  {
    if !(i == |s| || IsBreak(s[i])) {
      BreakFromIsFirst(s, i + 1);
    }
  }

  lemma {:induction false} LineEndIsFirst(s: string)
    ensures OneLine(s[..LineEnd(s)])
  {
    BreakFromIsFirst(s, 0);
  }

  /** Where the next line starts, given the first boundary at e: "\r\n" is one boundary. */
  function NextLine(s: string, e: nat): (n: nat)
    requires e < |s|
    ensures e < n <= |s|
  {
    if s[e] == '\r' && e + 1 < |s| && s[e + 1] == '\n' then e + 2 else e + 1
  }

  /** str.splitlines(). */
  function SplitLines(s: string): seq<string>
    decreases |s|
  {
    if s == "" then []
    else
      var e := LineEnd(s);
      if e == |s| then [s] else [s[..e]] + SplitLines(s[NextLine(s, e)..])
  }

  lemma {:induction false} SplitLinesOneLine(s: string)
    ensures forall l :: l in SplitLines(s) ==> OneLine(l)
    decreases |s|
  {
    if s != "" {
      LineEndIsFirst(s);
      var e := LineEnd(s);
      if e < |s| {
        SplitLinesOneLine(s[NextLine(s, e)..]);
      } else {
        assert s[..e] == s;
      }
    }
  }

  /** One line as a reader that strips it and skips it when blank sees it. */
  function Seen(l: string): seq<string> {
    if Strip(l) == "" then [] else [Strip(l)]
  }

  /** A text read line by line, each line contributing view(line). */
  function View(s: string, view: string -> seq<string>): seq<string>
    decreases |s|
  {
    var e := LineEnd(s);
    if e == |s| then view(s) else view(s[..e]) + View(s[NextLine(s, e)..], view)
  }

  /** A list of lines read the same way. */
  function ViewAll(ls: seq<string>, view: string -> seq<string>): seq<string> {
    if ls == [] then [] else view(ls[0]) + ViewAll(ls[1..], view)
  }

  /** The two agree, provided an empty line shows nothing. */
  lemma {:induction false} ViewSplit(s: string, view: string -> seq<string>)
    requires view("") == []
    ensures View(s, view) == ViewAll(SplitLines(s), view)
    decreases |s|
  {
    var e := LineEnd(s);
    if s == "" {
    } else if e == |s| {
      assert SplitLines(s) == [s];
    } else {
      var rest := SplitLines(s[NextLine(s, e)..]);
      assert SplitLines(s) == [s[..e]] + rest;
      assert ([s[..e]] + rest)[1..] == rest;
      ViewSplit(s[NextLine(s, e)..], view);
    }
  }

  /** The non-blank lines of a text, each stripped. */
  function Lines(s: string): seq<string> {
    View(s, Seen)
  }

  ghost predicate Settled(ls: seq<string>) {
    forall k :: 0 <= k < |ls| ==> ls[k] != "" && Tight(ls[k]) && OneLine(ls[k])
  }

  lemma {:induction false} SeenSettled(l: string)
    requires OneLine(l)
    ensures Settled(Seen(l))
  {
    StripOneLine(l);
  }

  lemma {:induction false} LinesSettled(s: string)
    ensures Settled(Lines(s))
    decreases |s|
  {
    LineEndIsFirst(s);
    var e := LineEnd(s);
    SeenSettled(s[..e]);
    if e == |s| {
      assert s[..e] == s;
    } else {
      var rest := s[NextLine(s, e)..];
      LinesSettled(rest);
      assert Lines(s) == Seen(s[..e]) + Lines(rest);
    }
  }

  function Join(ls: seq<string>, sep: string): string {
    if ls == [] then "" else if |ls| == 1 then ls[0] else ls[0] + sep + Join(ls[1..], sep)
  }

  lemma {:induction false} BreakFromPrefix(a: string, b: string, i: nat)
    requires i <= |a|
    ensures BreakFrom(a + b, i) == if BreakFrom(a, i) < |a| then BreakFrom(a, i) else BreakFrom(a + b, |a|)
    decreases |a| - i
  {
    if i < |a| && !IsBreak(a[i]) {
      BreakFromPrefix(a, b, i + 1);
    }
  }

  lemma {:induction false} BreakFromSuffix(a: string, b: string, j: nat)
    requires j <= |b|
    ensures BreakFrom(a + b, |a| + j) == |a| + BreakFrom(b, j)
    decreases |b| - j
  {
    if j < |b| && !IsBreak(b[j]) {
      BreakFromSuffix(a, b, j + 1);
    }
  }

  lemma {:induction false} LineEndConcat(a: string, b: string)
    ensures LineEnd(a + b) == if LineEnd(a) < |a| then LineEnd(a) else |a| + LineEnd(b)
  {
    BreakFromPrefix(a, b, 0);
    BreakFromSuffix(a, b, 0);
  }

  lemma {:induction false} SliceConcat<T>(a: seq<T>, t: seq<T>, k: nat)
    requires k <= |a|
    ensures (a + t)[..k] == a[..k] && (a + t)[k..] == a[k..] + t
    ensures t != [] ==> (a + t)[|a| + 1..] == t[1..]
  {}

  /** "\r\n" straddles the end of a. */
  predicate Straddles(a: string, t: string) {
    a != "" && a[|a| - 1] == '\r' && t != "" && t[0] == '\n'
  }

  /** A cut inside a is the same cut of a + t, unless it straddles the end of a. */
  lemma {:induction false} CutConcat(a: string, t: string, e: nat)
    requires e < |a|
    ensures (a + t)[..e] == a[..e]
    ensures
      var n := NextLine(a, e);
      if e + 1 == |a| && Straddles(a, t)
      then NextLine(a + t, e) == n + 1 && (a + t)[n + 1..] == t[1..] && a[n..] == ""
      else NextLine(a + t, e) == n && (a + t)[n..] == a[n..] + t
  {
    SliceConcat(a, t, e);
    SliceConcat(a, t, NextLine(a, e));
  }

  /** A newline between two texts never merges their lines. */
  lemma {:induction false} ViewNewline(a: string, b: string, view: string -> seq<string>)
    requires view("") == []
    ensures View(a + NL + b, view) == View(a, view) + View(b, view)
    decreases |a|
  {
    var t := NL + b;
    assert t[0] == '\n' && t[1..] == b;
    assert a + NL + b == a + t;
    ViewBoundary(a, t, view);
  }

  /** View consumes a text one boundary at a time. */
  lemma {:induction false} ViewCut(s: string, e: nat, rest: string, view: string -> seq<string>)
    requires LineEnd(s) == e < |s| && rest == s[NextLine(s, e)..]
    ensures View(s, view) == view(s[..e]) + View(rest, view)
  {}

  lemma {:induction false} ViewLastLine(a: string, t: string, view: string -> seq<string>)
    requires LineEnd(a) == |a| && t != "" && t[0] == '\n'
    ensures View(a + t, view) == view(a) + View(t[1..], view)
  {
    LineEndConcat(a, t);
    assert (a + t)[..|a|] == a && (a + t)[|a| + 1..] == t[1..];
    ViewCut(a + t, |a|, t[1..], view);
  }

  lemma {:induction false} ViewStraddle(a: string, t: string, view: string -> seq<string>)
    requires view("") == [] && LineEnd(a) + 1 == |a| && Straddles(a, t)
    ensures View(a + t, view) == View(a, view) + View(t[1..], view)
  {
    var e, b := LineEnd(a), t[1..];
    assert View(a, view) == view(a[..e]) by {
      assert a[NextLine(a, e)..] == "";
      ViewCut(a, e, "", view);
      assert LineEnd("") == 0;
    }
    assert View(a + t, view) == view(a[..e]) + View(b, view) by {
      LineEndConcat(a, t);
      CutConcat(a, t, e);
      ViewCut(a + t, e, b, view);
    }
  }

  /** Both texts read their common first line alike. */
  lemma {:induction false} ViewFirstLine(a: string, t: string, view: string -> seq<string>)
    returns (line: string, rest: string)
    requires LineEnd(a) < |a| && !(LineEnd(a) + 1 == |a| && Straddles(a, t))
    ensures |rest| < |a|
    ensures View(a, view) == view(line) + View(rest, view)
    ensures View(a + t, view) == view(line) + View(rest + t, view)
  {
    var e := LineEnd(a);
    LineEndConcat(a, t);
    CutConcat(a, t, e);
    line, rest := a[..e], a[NextLine(a, e)..];
    ViewCut(a, e, rest, view);
    ViewCut(a + t, e, rest + t, view);
  }

  lemma {:induction false} ViewBoundary(a: string, t: string, view: string -> seq<string>)
    requires view("") == [] && t != "" && t[0] == '\n'
    ensures View(a + t, view) == View(a, view) + View(t[1..], view)
    decreases |a|
  {
    var e := LineEnd(a);
    if e == |a| {
      ViewLastLine(a, t, view);
    } else if e + 1 == |a| && Straddles(a, t) {
      ViewStraddle(a, t, view);
    } else {
      var line, rest := ViewFirstLine(a, t, view);
      ViewBoundary(rest, t, view);
    }
  }

  lemma {:induction false} BreakFromNone(s: string, i: nat)
    requires OneLine(s) && i <= |s|
    ensures BreakFrom(s, i) == |s|
    decreases |s| - i
  {
    if i < |s| {
      BreakFromNone(s, i + 1);
    }
  }

  lemma {:induction false} StripLeading(c: char, s: string)
    requires IsSpace(c)
    ensures Strip([c] + s) == Strip(s)
  {
    RStripLeading(c, s);
    var t := RStrip(s);
    if t != "" {
      assert ([c] + t)[1..] == t;
    }
  }

  lemma {:induction false} RStripLeading(c: char, s: string)
    requires IsSpace(c)
    ensures RStrip([c] + s) == if RStrip(s) == "" then "" else [c] + RStrip(s)
  {
    var t := [c] + s;
    if s == "" {
      assert t[..0] == "";
    } else if IsSpace(s[|s| - 1]) {
      assert t[..|t| - 1] == [c] + s[..|s| - 1];
      RStripLeading(c, s[..|s| - 1]);
    }
  }

  lemma {:induction false} StripTrailing(s: string, c: char)
    requires IsSpace(c)
    ensures Strip(s + [c]) == Strip(s)
  {
    assert (s + [c])[..|s|] == s;
  }

  /** A view that ignores whitespace around a line. */
  ghost predicate IgnoresSpace(view: string -> seq<string>) {
    && view("") == []
    && (forall c, s | IsSpace(c) :: view([c] + s) == view(s))
    && (forall c, s | IsSpace(c) :: view(s + [c]) == view(s))
  }

  lemma {:induction false} SeenIgnoresSpace()
    ensures IgnoresSpace(Seen)
  {
    forall c, s | IsSpace(c)
      ensures Seen([c] + s) == Seen(s) && Seen(s + [c]) == Seen(s)
    {
      StripLeading(c, s);
      StripTrailing(s, c);
    }
  }

  /** Leading whitespace, boundary or not, is then invisible. */
  lemma {:induction false} ViewLeading(c: char, s: string, view: string -> seq<string>)
    requires IsSpace(c) && IgnoresSpace(view)
    ensures View([c] + s, view) == View(s, view)
    decreases |s|
  {
    var t := [c] + s;
    assert t[1..] == s;
    if IsBreak(c) {
      assert LineEnd(t) == 0 && t[..0] == "";
      if c == '\r' && s != "" && s[0] == '\n' {
        assert t[2..] == s[1..] && s == [s[0]] + s[1..];
        ViewLeading(s[0], s[1..], view);
      }
    } else {
      var e := LineEnd(s);
      LineEndConcat([c], s);
      assert t[..e + 1] == [c] + s[..e];
      if e == |s| {
        assert t[..e + 1] == t && s[..e] == s;
      } else {
        assert t[NextLine(t, e + 1)..] == s[NextLine(s, e)..];
      }
    }
  }

  /** And so is trailing whitespace. */
  lemma {:induction false} ViewTrailing(s: string, c: char, view: string -> seq<string>)
    requires IsSpace(c) && IgnoresSpace(view)
    ensures View(s + [c], view) == View(s, view)
    decreases |s|
  {
    var e := LineEnd(s);
    if e == |s| {
      LineEndConcat(s, [c]);
      if IsBreak(c) {
        assert (s + [c])[..e] == s && (s + [c])[e + 1..] == "";
      } else {
        assert [c][1..] == "" && LineEnd([c]) == 1;
      }
    } else {
      LineEndConcat(s, [c]);
      CutConcat(s, [c], e);
      var n := NextLine(s, e);
      if e + 1 == |s| && Straddles(s, [c]) {
        assert [c][1..] == "";
      } else {
        ViewTrailing(s[n..], c, view);
      }
    }
  }

  /** Stripping the whole text changes no line. */
  lemma {:induction false} ViewStrip(s: string, view: string -> seq<string>)
    requires IgnoresSpace(view)
    ensures View(Strip(s), view) == View(s, view)
    decreases |s|
  {
    if s != "" && IsSpace(s[|s| - 1]) {
      var t := s[..|s| - 1];
      assert s == t + [s[|s| - 1]];
      ViewTrailing(t, s[|s| - 1], view);
      ViewStrip(t, view);
    } else if s != "" && IsSpace(s[0]) {
      var t := s[1..];
      assert s == [s[0]] + t;
      ViewLeading(s[0], t, view);
      ViewStrip(t, view);
      StripLeading(s[0], t);
    } else {
      StripTight(s);
    }
  }

  /** A one-line text shows exactly itself. */
  lemma {:induction false} ViewOneLine(s: string, view: string -> seq<string>)
    requires OneLine(s)
    ensures View(s, view) == view(s)
  {
    BreakFromNone(s, 0);
  }

  lemma {:induction false} ViewBehindNewline(b: string, view: string -> seq<string>)
    requires view("") == []
    ensures View(['\n'] + b, view) == View(b, view)
  {
    var t := ['\n'] + b;
    assert t[..0] == "" && t[1..] == b && LineEnd(t) == 0;
    ViewCut(t, 0, b, view);
  }

  /** An empty line between two texts does not show. */
  lemma {:induction false} ViewGap(a: string, b: string, view: string -> seq<string>)
    requires view("") == []
    ensures View(a + (NL + NL) + b, view) == View(a, view) + View(b, view)
  {
    var u := ['\n'] + b;
    var t := ['\n'] + u;
    assert a + (NL + NL) + b == a + t;
    assert t[1..] == u;
    ViewBoundary(a, t, view);
    ViewBehindNewline(b, view);
  }

  /** The parts of a text, read one after the other. */
  function Each(ls: seq<string>, view: string -> seq<string>): seq<string> {
    if ls == [] then [] else View(ls[0], view) + Each(ls[1..], view)
  }

  lemma {:induction false} ViewSections(ls: seq<string>, view: string -> seq<string>)
    requires view("") == []
    ensures View(Join(ls, NL + NL), view) == Each(ls, view)
  {
    if ls == [] {
      ViewOneLine("", view);
    } else if |ls| == 1 {
      assert Each(ls[1..], view) == [];
    } else {
      ViewSections(ls[1..], view);
      ViewGap(ls[0], Join(ls[1..], NL + NL), view);
    }
  }

  /** Lines joined by newlines are read back one by one. */
  lemma {:induction false} ViewJoin(ls: seq<string>, view: string -> seq<string>)
    requires view("") == []
    requires forall k :: 0 <= k < |ls| ==> OneLine(ls[k])
    ensures View(Join(ls, NL), view) == ViewAll(ls, view)
  {
    if |ls| == 0 {
      ViewOneLine("", view);
    } else {
      ViewOneLine(ls[0], view);
      if |ls| > 1 {
        ViewJoin(ls[1..], view);
        ViewNewline(ls[0], Join(ls[1..], NL), view);
      }
    }
  }

  lemma {:induction false} ViewAllConcat(a: seq<string>, b: seq<string>, view: string -> seq<string>)
    ensures ViewAll(a + b, view) == ViewAll(a, view) + ViewAll(b, view)
  {
    if a == [] {
      assert a + b == b;
    } else {
      assert (a + b)[1..] == a[1..] + b;
      ViewAllConcat(a[1..], b, view);
    }
  }

  /** Settled lines survive a join unchanged. */
  lemma {:induction false} LinesJoin(ls: seq<string>)
    requires Settled(ls)
    ensures Lines(Join(ls, NL)) == ls
  {
    ViewJoin(ls, Seen);
    ViewAllSettled(ls);
  }

  lemma {:induction false} ViewAllSettled(ls: seq<string>)
    requires Settled(ls)
    ensures ViewAll(ls, Seen) == ls
  {
    if ls != [] {
      StripTight(ls[0]);
      ViewAllSettled(ls[1..]);
    }
  }

  /** The text from i on with every run of whitespace as one space, and none at the end;
      `gap` says that whitespace stands before i. */
  function Collapsed(s: string, i: nat, gap: bool): string
    requires i <= |s|
    decreases |s| - i
  {
    if i == |s| then ""
    else if IsSpace(s[i]) then Collapsed(s, i + 1, true)
    else (if gap then [' ', s[i]] else [s[i]]) + Collapsed(s, i + 1, false)
  }

  /** " ".join(s.split()). */
  function Collapse(s: string): string { Collapsed(Strip(s), 0, false) }

  /** The head of a text within n characters, marked when something is cut off. */
  function Clip(text: string, n: nat): (r: string)
    ensures |r| <= n
  {
    var t := Strip(text);
    var omission := " ...[생략]";
    if |t| <= n then t
    else if n <= |omission| then t[..n]
    else RStrip(t[..n - |omission|]) + omission
  }

  // Decimal notation

  function Digit(d: nat): (c: char)
    requires d < 10
    ensures '0' <= c <= '9' && c as int - '0' as int == d
  {
    '0' + d as char
  }

  /** str(n) for a non-negative n. */
  function Decimal(n: nat): (s: string)
    ensures s != "" && forall k :: 0 <= k < |s| ==> '0' <= s[k] <= '9'
  {
    if n < 10 then [Digit(n)] else Decimal(n / 10) + [Digit(n % 10)]
  }

  /** The digits of int(s): ASCII digits, single underscores between digits. */
  function Digits(s: string): Option<nat> {
    if s == "" || !('0' <= s[|s| - 1] <= '9') then None
    else
      var d := s[|s| - 1] as int - '0' as int;
      if |s| == 1 then Some(d)
      else
        var rest := if s[|s| - 2] == '_' then s[..|s| - 2] else s[..|s| - 1];
        match Digits(rest)
        case None => None
        case Some(n) => Some(10 * n + d)
  }

  /** int(s), or None where Python raises ValueError. */
  function ParseInt(s: string): Option<int> {
    var t := Strip(s);
    if t != "" && (t[0] == '-' || t[0] == '+') then
      match Digits(t[1..])
      case None => None
      case Some(n) => Some(if t[0] == '-' then -(n as int) else n as int)
    else
      match Digits(t)
      case None => None
      case Some(n) => Some(n)
  }

  lemma {:induction false} DigitsDecimal(n: nat)
    ensures Digits(Decimal(n)) == Some(n)
  {
    if n >= 10 {
      var s := Decimal(n);
      assert s[..|s| - 1] == Decimal(n / 10);
      DigitsDecimal(n / 10);
    }
  }

  lemma {:induction false} ParseDecimal(n: nat)
    ensures ParseInt(Decimal(n)) == Some(n)
    ensures OneLine(Decimal(n)) && Tight(Decimal(n))
  {
    var s := Decimal(n);
    assert !IsSpace(s[0]) && !IsSpace(s[|s| - 1]);
    StripTight(s);
    DigitsDecimal(n);
  }
}
