/** What the parser recovers from a printed summary, for every Tier 3 text. */
module SummaryRoundTrip {
  import opened Text
  import opened TieredSummary

  // Reserved lines

  lemma {:induction false} NoticeHead()
    ensures OneLine(NOTICE_HEAD)
  {}

  lemma {:induction false} NoticeStart()
    ensures NOTICE_HEAD != "" && !IsSpace(NOTICE_HEAD[0])
  {}

  lemma {:induction false} NoticeTail()
    ensures OneLine(NOTICE_TAIL) && NOTICE_TAIL != "" && !IsSpace(NOTICE_TAIL[|NOTICE_TAIL| - 1])
  {}

  lemma {:induction false} NoticeIsALine()
    ensures Lines(NOTICE) == [NOTICE]
  {
    NoticeHead();
    NoticeStart();
    NoticeTail();
    OneLineConcat(NOTICE_HEAD, NOTICE_TAIL);
    LinesOfLine(NOTICE);
  }

  lemma {:induction false} OneLineConcat(a: string, b: string)
    requires OneLine(a) && OneLine(b)
    ensures OneLine(a + b)
  {}

  lemma {:induction false} LinesOfLine(s: string)
    requires s != "" && OneLine(s) && Tight(s)
    ensures Lines(s) == [s]
  {
    ViewOneLine(s, Seen);
    StripTight(s);
  }

  lemma {:induction false} VersionIsALine()
    ensures Lines(VERSION) == [VERSION]
  {
    LinesOfLine(VERSION);
  }

  lemma {:induction false} Tier3HeaderIsALine()
    ensures Lines(TIER3_HEADER) == [TIER3_HEADER]
  {
    LinesOfLine(TIER3_HEADER);
  }

  lemma {:induction false} Tier2HeaderIsALine()
    ensures Lines(TIER2_HEADER) == [TIER2_HEADER]
  {
    LinesOfLine(TIER2_HEADER);
  }

  lemma {:induction false} ArtifactsHeaderIsALine()
    ensures Lines(ARTIFACTS_HEADER) == [ARTIFACTS_HEADER]
  {
    LinesOfLine(ARTIFACTS_HEADER);
  }

  lemma {:induction false} Tier3EmptyIsALine()
    ensures Lines(TIER3_EMPTY) == [TIER3_EMPTY] && Classify(TIER3_EMPTY) == Tier3Empty
  {
    LinesOfLine(TIER3_EMPTY);
    assert TIER3_EMPTY[0] == '(' && RANGE_PREFIX[0] == '적' && NOTICE[0] == '>';
  }

  lemma {:induction false} Tier2EmptyIsALine()
    ensures Lines(TIER2_EMPTY) == [TIER2_EMPTY] && Classify(TIER2_EMPTY) == Tier2Empty
  {
    LinesOfLine(TIER2_EMPTY);
    assert TIER2_EMPTY[0] == '(' && RANGE_PREFIX[0] == '적' && NOTICE[0] == '>';
    assert TIER2_EMPTY[4] != TIER3_EMPTY[4];
  }

  lemma {:induction false} KindsOfReserved()
    ensures Classify(TIER3_HEADER) == Tier3Header && Classify(TIER2_HEADER) == Tier2Header
    ensures Classify(ARTIFACTS_HEADER) == ArtifactsHeader
    ensures Classify(NOTICE) == Notice && Classify(NO_RANGE) == NoRange
  {
    assert NOTICE[0] == '>';
  }

  /** A printed coverage line reads back as its number. */
  lemma {:induction false} CoverageReadsBack(through: int)
    ensures Lines(Coverage(through)) == [Coverage(through)]
    ensures through > 0 ==> Classify(Coverage(through)) == Range(Some(through))
    ensures through <= 0 ==> Classify(Coverage(through)) == NoRange
  {
    if through > 0 {
      ParseDecimal(through);
      var d := Decimal(through);
      assert OneLine(RANGE_PREFIX);
      OneLineConcat(RANGE_PREFIX, d);
      LinesOfLine(RANGE_PREFIX + d);
      RangeLine(d);
    } else {
      KindsOfReserved();
      LinesOfLine(NO_RANGE);
    }
  }

  lemma {:induction false} RangeLine(d: string)
    ensures Classify(RANGE_PREFIX + d) == Range(ParseInt(d))
  {
    var l := RANGE_PREFIX + d;
    assert l[..|RANGE_PREFIX|] == RANGE_PREFIX && l[|RANGE_PREFIX|..] == d;
    assert l[0] == '적';
    assert l[7] == 'S' && NO_RANGE[7] == '없';
    assert TIER3_HEADER[0] != '적' && NOTICE[0] != '적';
  }

  /** A line starting with one of the two marks is prose. */
  lemma {:induction false} MarkedIsProse(l: string)
    requires l != "" && (l[0] == '[' || l[0] == '…')
    ensures Classify(l) == Prose
  {
    assert NOTICE[0] == '>';
  }

  // The printed Tier 3 text

  /** Every line is prose to the parser. */
  ghost predicate AllProse(ls: seq<string>, kind: string -> Kind) {
    forall k {:trigger ls[k]} :: 0 <= k < |ls| ==> kind(ls[k]) == Prose
  }

  /** Whatever starts like the mark is prose. */
  ghost predicate MarksProse(mark: string, kind: string -> Kind) {
    && mark != "" && OneLine(mark) && !IsSpace(mark[0])
    && (forall l :: l != "" && l[0] == mark[0] ==> kind(l) == Prose)
  }

  lemma {:induction false} CutMarkMarks()
    ensures MarksProse(CUT_MARK, Classify)
  {
    assert CUT_MARK[0] == '…';
    forall l: string | l != "" && l[0] == '…'
      ensures Classify(l) == Prose
    {
      MarkedIsProse(l);
    }
  }

  lemma {:induction false} MarkedBodyIsProse(line: string)
    requires OneLine(line)
    ensures OneLine(BODY_MARK + line) && Strip(BODY_MARK + line) != ""
    ensures Classify(Strip(BODY_MARK + line)) == Prose
  {
    assert OneLine(BODY_MARK) && BODY_MARK[0] == '[';
    OneLineConcat(BODY_MARK, line);
    StripKeepsFirst(BODY_MARK + line);
    MarkedIsProse(Strip(BODY_MARK + line));
  }

  lemma {:induction false} GuardCases(line: string)
    ensures Guard(line) == BODY_MARK + line || (Guard(line) == line && Classify(Strip(line)) == Prose)
  {}

  lemma {:induction false} GuardIsProse(line: string)
    requires OneLine(line)
    ensures OneLine(Guard(line)) && AllProse(Seen(Guard(line)), Classify)
  {
    var g := Guard(line);
    MarkedBodyIsProse(line);
    assert OneLine(g) && Classify(Strip(g)) == Prose by {
      GuardCases(line);
    }
  }

  ghost predicate AllOneLine(ls: seq<string>) {
    forall k {:trigger ls[k]} :: 0 <= k < |ls| ==> OneLine(ls[k])
  }

  lemma {:induction false} GuardedIsProse(lines: seq<string>)
    requires AllOneLine(lines)
    ensures AllOneLine(Guarded(lines)) && AllProse(ViewAll(Guarded(lines), Seen), Classify)
  {
    if lines != [] {
      GuardIsProse(lines[0]);
      GuardedIsProse(lines[1..]);
      assert Guarded(lines)[1..] == Guarded(lines[1..]);
    }
  }

  /** The only line boundary of joined lines is the newline between them. */
  ghost predicate OnlyNewlines(s: string) {
    forall k :: 0 <= k < |s| && IsBreak(s[k]) ==> s[k] == '\n'
  }

  lemma {:induction false} JoinedOnlyNewlines(ls: seq<string>)
    requires AllOneLine(ls)
    ensures OnlyNewlines(Join(ls, NL))
  {
    if |ls| > 1 {
      JoinedOnlyNewlines(ls[1..]);
    }
  }

  lemma {:induction false} StripInside(s: string) returns (i: nat)
    ensures i + |Strip(s)| <= |s| && Strip(s) == s[i..i + |Strip(s)|]
  {
    var r := RStrip(s);
    RStripInside(s);
    i := LStripInside(r);
  }

  lemma {:induction false} RStripInside(s: string)
    ensures RStrip(s) == s[..|RStrip(s)|]
  {
    if s != "" && IsSpace(s[|s| - 1]) {
      RStripInside(s[..|s| - 1]);
    }
  }

  lemma {:induction false} LStripInside(s: string) returns (i: nat)
    ensures i + |LStrip(s)| == |s| && LStrip(s) == s[i..]
  {
    if s != "" && IsSpace(s[0]) {
      var j := LStripInside(s[1..]);
      i := j + 1;
    } else {
      i := 0;
    }
  }

  lemma {:induction false} StripOnlyNewlines(s: string)
    requires OnlyNewlines(s)
    ensures OnlyNewlines(Strip(s))
  {
    var i := StripInside(s);
  }

  /** A mark put in front of a text turns its first line into a marked one and leaves the
      other lines as they are. */
  lemma {:induction false} MarkedLines(m: string, s: string)
    requires m != "" && OneLine(m) && !IsSpace(m[0])
    ensures forall k {:trigger Lines(m + s)[k]} :: 0 <= k < |Lines(m + s)| ==>
      (Lines(m + s)[k] != "" && Lines(m + s)[k][0] == m[0]) || Lines(m + s)[k] in Lines(s)
  {
    var e := LineEnd(s);
    BreakFromNone(m, 0);
    LineEndConcat(m, s);
    var t := m + s;
    assert t[..|m| + e] == m + s[..e];
    StripKeepsFirst(m + s[..e]);
    if e == |s| {
      assert t[..|m| + e] == t;
    } else {
      assert t[NextLine(t, |m| + e)..] == s[NextLine(s, e)..];
    }
  }

  lemma {:induction false} MarkedTailIsProse(mark: string, s: string, kind: string -> Kind)
    requires MarksProse(mark, kind)
    requires AllProse(Lines(s), kind) || OneLine(s)
    ensures AllProse(Lines(mark + s), kind)
  {
    var ls := Lines(mark + s);
    if OneLine(s) {
      OneLineConcat(mark, s);
      ViewOneLine(mark + s, Seen);
      StripKeepsFirst(mark + s);
    } else {
      MarkedLines(mark, s);
    }
  }

  lemma {:induction false} LastLinesAreProse(a: string, s: string, kind: string -> Kind)
    requires AllProse(Lines(a + NL + s), kind)
    ensures AllProse(Lines(s), kind)
  {
    assert Seen("") == [];
    ViewNewline(a, s, Seen);
    ProseSuffix(Lines(a), Lines(s), kind);
  }

  lemma {:induction false} ProseSuffix(x: seq<string>, y: seq<string>, kind: string -> Kind)
    requires AllProse(x + y, kind)
    ensures AllProse(y, kind)
  {
    assert forall k :: 0 <= k < |y| ==> y[k] == (x + y)[|x| + k];
  }

  /** The end of a text from its first whole line on, behind place k, is part of one line
      or some of the last lines. */
  lemma {:induction false} EndIsProse(t: string, k: nat, kind: string -> Kind)
    requires k < |t| && OnlyNewlines(t) && AllProse(Lines(t), kind)
    ensures OneLine(t[WholeFrom(t, k)..]) || AllProse(Lines(t[WholeFrom(t, k)..]), kind)
  {
    var e := NewlineFrom(t, k);
    if e < |t| {
      var s := t[e + 1..];
      assert t == t[..e] + NL + s;
      LastLinesAreProse(t[..e], s, kind);
    }
  }

  lemma {:induction false} LStripNonBlank(s: string)
    requires s != "" && !IsSpace(s[|s| - 1])
    ensures LStrip(s) != ""
  {
    if IsSpace(s[0]) {
      LStripNonBlank(s[1..]);
    }
  }

  lemma {:induction false} StripNonBlank(s: string)
    requires s != "" && !IsSpace(s[|s| - 1])
    ensures Strip(s) != ""
  {
    LStripNonBlank(s);
  }

  /** A text that ends in a character other than a space is marked, and nothing of it is
      stripped. */
  lemma {:induction false} MarkedIs(whole: string, mark: string, rest: string)
    requires whole != "" && !IsSpace(whole[|whole| - 1]) && mark != "" && !IsSpace(mark[0])
    ensures Strip(whole) != "" && Marked(whole, mark, rest) == mark + whole
  {
    StripNonBlank(whole);
    StripTight(mark + whole);
  }

  lemma {:induction false} MarkedEndIsProse(t: string, k: nat, mark: string, rest: string, kind: string -> Kind)
    requires k < |t| && !IsSpace(t[|t| - 1]) && OnlyNewlines(t) && AllProse(Lines(t), kind) && MarksProse(mark, kind)
    ensures Strip(t[WholeFrom(t, k)..]) != ""
    ensures AllProse(Lines(Marked(t[WholeFrom(t, k)..], mark, rest)), kind)
  {
    var s := t[WholeFrom(t, k)..];
    EndIsProse(t, k, kind);
    MarkedTailIsProse(mark, s, kind);
    MarkedIs(s, mark, rest);
  }

  /** The place a longer text is cut at, and what is left of it. */
  lemma {:induction false} NewestOfLonger(t: string, n: nat) returns (k: nat, m: string)
    requires |CUT_MARK| < n < |t|
    ensures k < |t| && m == Newest(t, n)
    ensures m == Marked(t[WholeFrom(t, k)..], CUT_MARK, t[|t| - n..])
  {
    k := |t| - (n - |CUT_MARK|);
    m := Marked(t[WholeFrom(t, k)..], CUT_MARK, t[|t| - n..]);
  }

  lemma {:induction false} MarkedIsProseHere(t: string, n: nat, k: nat, m: string)
    requires n <= |t| && k < |t| && m == Marked(t[WholeFrom(t, k)..], CUT_MARK, t[|t| - n..])
    requires !IsSpace(t[|t| - 1]) && OnlyNewlines(t) && AllProse(Lines(t), Classify)
    ensures AllProse(Lines(m), Classify)
  {
    CutMarkMarks();
    MarkedEndIsProse(t, k, CUT_MARK, t[|t| - n..], Classify);
  }

  lemma {:induction false} LongerIsProse(t: string, n: nat)
    requires |CUT_MARK| < n < |t| && !IsSpace(t[|t| - 1])
    requires OnlyNewlines(t) && AllProse(Lines(t), Classify)
    ensures AllProse(Lines(Newest(t, n)), Classify)
  {
    var k, m := NewestOfLonger(t, n);
    MarkedIsProseHere(t, n, k, m);
  }

  /** Clipping the tail of a text of prose leaves prose. */
  lemma {:induction false} NewestIsProse(t: string, n: nat)
    requires n > |CUT_MARK| && Tight(t) && OnlyNewlines(t) && AllProse(Lines(t), Classify)
    ensures AllProse(Lines(Newest(t, n)), Classify)
  {
    if |t| > n {
      LongerIsProse(t, n);
    }
  }

  /** The guarded procedure is prose. */
  lemma {:induction false} GuardedText(tier3: string) returns (t: string)
    ensures t == Strip(Join(Guarded(SplitLines(tier3)), NL))
    ensures AllProse(Lines(t), Classify) && OnlyNewlines(t) && Tight(t)
  {
    var g := Guarded(SplitLines(tier3));
    var text := Join(g, NL);
    SplitLinesOneLine(tier3);
    GuardedIsProse(SplitLines(tier3));
    assert Seen("") == [];
    ViewJoin(g, Seen);
    JoinedOnlyNewlines(g);
    StripOnlyNewlines(text);
    LinesStrip(text);
    t := Strip(text);
  }

  lemma {:induction false} PrintedCases(tier3: string, t: string) returns (m: string)
    requires t == Strip(Join(Guarded(SplitLines(tier3)), NL))
    ensures m == Newest(t, TIER3_CHARS) && Tier3Text(tier3) == if m == "" then TIER3_EMPTY else m
  {
    m := TailClip(Join(Guarded(SplitLines(tier3)), NL), TIER3_CHARS);
  }

  /** However the procedure imitates reserved lines, its printed body holds none: it is
      prose, or the placeholder alone. */
  lemma {:induction false} Tier3TextIsProse(tier3: string)
    ensures AllProse(Lines(Tier3Text(tier3)), Classify) || Lines(Tier3Text(tier3)) == [TIER3_EMPTY]
  {
    var t := GuardedText(tier3);
    var m := PrintedCases(tier3, t);
    if m == "" {
      Tier3EmptyIsALine();
    } else {
      NewestIsProse(t, TIER3_CHARS);
    }
  }
}
