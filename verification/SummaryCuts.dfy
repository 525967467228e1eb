/** Which watermark is left of a summary text that is cut off behind some characters. */
module SummaryCuts {
  import opened Text
  import opened TieredSummary
  import opened SummaryRoundTrip
  import opened SummaryWatermark

  // The grammar of a text with a watermark

  /** A line the parser passes over or collects in the body of Tier 3. */
  predicate InBody(k: Kind) {
    !IsHeader(k) && !k.Notice? && !k.NoRange? && !k.Range?
  }

  /** Version, Tier 3 header, notice and coverage n, then body lines up to the Tier 2 header
      at b, and no header out of order behind it. */
  ghost predicate ReadsAt(ls: seq<string>, b: nat, n: nat) {
    && n > 0 && 4 <= b < |ls|
    && ls[0] == VERSION && Classify(ls[1]).Tier3Header? && Classify(ls[2]).Notice? && Classify(ls[3]) == Range(Some(n))
    && (forall i {:trigger ls[i]} :: 4 <= i < b ==> InBody(Classify(ls[i])))
    && Classify(ls[b]).Tier2Header? && Orderly(ls[b + 1..], 1)
  }

  /** The lines are those of a summary with watermark n. */
  ghost predicate Reads(ls: seq<string>, n: nat) {
    exists b: nat :: ReadsAt(ls, b, n)
  }

  ghost predicate HasWatermark(ls: seq<string>) {
    exists n: nat :: Reads(ls, n)
  }

  predicate Ends(r: Option<State>) {
    r.Some? && (r.value.section.Tier2? || r.value.section.Discoveries?)
  }

  lemma {:induction false} RunUnfold(st: State, ls: seq<string>, kind: string -> Kind)
    requires ls != []
    ensures Run(st, ls, kind) ==
      match Step(st, kind(ls[0]), ls[0])
      case None => None
      case Some(next) => Run(next, ls[1..], kind)
  {}

  /** From the body the parser gets to an end exactly over body lines, the Tier 2 header and
      an orderly rest. */
  lemma {:induction false} BodyEnds(st: State, ls: seq<string>) returns (b: nat)
    requires st.section.Body? && Ends(Run(st, ls, Classify))
    ensures b < |ls| && (forall i {:trigger ls[i]} :: 0 <= i < b ==> InBody(Classify(ls[i])))
    ensures Classify(ls[b]).Tier2Header? && Orderly(ls[b + 1..], 1)
    ensures Run(st, ls, Classify).value.through == st.through
    decreases |ls|
  {
    assert ls != [];
    RunUnfold(st, ls, Classify);
    var next := Step(st, Classify(ls[0]), ls[0]).value;
    if next.section.Tier2? {
      b := 0;
      RunTail(next, ls[1..]);
    } else {
      var c := BodyEnds(next, ls[1..]);
      b := c + 1;
      assert ls[1..][c + 1..] == ls[b + 1..] && ls[1..][c] == ls[b];
      forall i | 0 <= i < b
        ensures InBody(Classify(ls[i]))
      {
        assert i == 0 || ls[i] == ls[1..][i - 1];
      }
    }
  }

  lemma {:induction false} BodyLeads(st: State, ls: seq<string>, b: nat)
    requires st.section.Body? && b < |ls| && Classify(ls[b]).Tier2Header? && Orderly(ls[b + 1..], 1)
    requires forall i {:trigger ls[i]} :: 0 <= i < b ==> InBody(Classify(ls[i]))
    ensures Ends(Run(st, ls, Classify)) && Run(st, ls, Classify).value.through == st.through
    decreases |ls|
  {
    RunUnfold(st, ls, Classify);
    var next := Step(st, Classify(ls[0]), ls[0]).value;
    if b == 0 {
      RunTail(next, ls[1..]);
    } else {
      assert ls[1..][b - 1] == ls[b] && ls[1..][b..] == ls[b + 1..];
      BodyLeads(next, ls[1..], b - 1);
    }
  }

  /** The three lines in front of the body. */
  lemma {:induction false} FrontRuns(ls: seq<string>, kind: string -> Kind)
    requires |ls| >= 3
    ensures var k := kind(ls[2]);
      var n := if k.Range? && k.through.Some? && k.through.value > 0 then k.through.value else 0;
      Run(START, ls, kind) ==
        if kind(ls[0]).Tier3Header? && kind(ls[1]).Notice? && (k.NoRange? || (k.Range? && k.through.Some?))
        then Run(State(Body, [], n, [], []), ls[3..], kind) else None
  {
    var a, b := ls[1..], ls[2..];
    assert a[1..] == b && b[1..] == ls[3..] && a[0] == ls[1] && b[0] == ls[2];
    RunUnfold(START, ls, kind);
    if kind(ls[0]).Tier3Header? {
      RunUnfold(START.(section := AtNotice), a, kind);
      if kind(ls[1]).Notice? {
        RunUnfold(START.(section := AtRange), b, kind);
      }
    }
  }

  lemma {:induction false} ShortNeverEnds(ls: seq<string>, kind: string -> Kind)
    requires |ls| < 3
    ensures !Ends(Run(START, ls, kind))
  {
    if ls != [] {
      RunUnfold(START, ls, kind);
      if kind(ls[0]).Tier3Header? && |ls| == 2 {
        RunUnfold(START.(section := AtNotice), ls[1..], kind);
      }
    }
  }

  /** The parser finds watermark n > 0 exactly in lines of that grammar. */
  lemma {:induction false} ParseReads(ls: seq<string>, n: nat)
    requires n > 0
    ensures ParseLines(ls, Classify).through == n <==> Reads(ls, n)
  {
    if ls != [] && ls[0] == VERSION {
      var rest := ls[1..];
      if |rest| < 3 {
        ShortNeverEnds(rest, Classify);
      } else {
        FrontRuns(rest, Classify);
        RestReads(ls, rest, rest[3..], n);
      }
    }
  }

  lemma {:induction false} RestReads(ls: seq<string>, rest: seq<string>, body: seq<string>, n: nat)
    requires n > 0 && |ls| >= 4 && ls[0] == VERSION && rest == ls[1..] && body == ls[4..]
    requires var k := Classify(ls[3]);
      var through := if k.Range? && k.through.Some? && k.through.value > 0 then k.through.value else 0;
      Run(START, rest, Classify) ==
        if Classify(ls[1]).Tier3Header? && Classify(ls[2]).Notice? && (k.NoRange? || (k.Range? && k.through.Some?))
        then Run(State(Body, [], through, [], []), body, Classify) else None
    ensures Finish(Run(START, rest, Classify)).through == n <==> Reads(ls, n)
  {
    if Finish(Run(START, rest, Classify)).through == n {
      var k := Classify(ls[3]);
      var through: nat := if k.Range? && k.through.Some? && k.through.value > 0 then k.through.value else 0;
      var b := BodyEnds(State(Body, [], through, [], []), body);
      BodyAt(ls, body, b);
      assert ReadsAt(ls, b + 4, n);
    }
    if Reads(ls, n) {
      var b: nat :| ReadsAt(ls, b, n);
      BodyAt(ls, body, b - 4);
      BodyLeads(State(Body, [], n, [], []), body, b - 4);
    }
  }

  lemma {:induction false} BodyAt(ls: seq<string>, body: seq<string>, b: nat)
    requires |ls| >= 4 && body == ls[4..] && b < |body|
    ensures body[b] == ls[b + 4] && body[b + 1..] == ls[b + 5..]
    ensures (forall i {:trigger body[i]} :: 0 <= i < b ==> InBody(Classify(body[i])))
            <==> (forall i {:trigger ls[i]} :: 4 <= i < b + 4 ==> InBody(Classify(ls[i])))
  {
    if forall i {:trigger body[i]} :: 0 <= i < b ==> InBody(Classify(body[i])) {
      forall i | 4 <= i < b + 4
        ensures InBody(Classify(ls[i]))
      {
        assert ls[i] == body[i - 4];
      }
    }
  }

  // Cutting a text

  /** Where the last line of a text starts. */
  function LastLineStart(s: string): (b: nat)
    ensures b <= |s| && (b > 0 ==> IsBreak(s[b - 1])) && forall k :: b <= k < |s| ==> !IsBreak(s[k])
  {
    if s == "" || IsBreak(s[|s| - 1]) then |s| else LastLineStart(s[..|s| - 1])
  }

  /** The non-blank lines of a text that end within its first m characters. */
  function WholeLines(t: string, m: nat): seq<string>
    requires m <= |t|
  {
    var head := RStrip(t[..m]);
    Lines(head[..LastLineStart(head)])
  }

  /** The first line boundary of a text that ends in one, also with more text behind it. */
  lemma {:induction false} FirstCut(a: string, x: string) returns (e: nat, rest: string)
    requires a != "" && IsBreak(a[|a| - 1]) && !Straddles(a, x)
    ensures LineEnd(a) == e < |a| && rest == a[NextLine(a, e)..] && |rest| < |a|
    ensures LineEnd(a + x) == e && (a + x)[..e] == a[..e] && rest + x == (a + x)[NextLine(a + x, e)..]
    ensures rest == "" || rest[|rest| - 1] == a[|a| - 1]
  {
    e := LineEnd(a);
    BreakInside(a, 0);
    LineEndConcat(a, x);
    CutConcat(a, x, e);
    rest := a[NextLine(a, e)..];
  }

  lemma {:induction false} ViewTwice(a: string, ax: string, e: nat, rest: string, x: string,
                                     view: string -> seq<string>)
    requires LineEnd(a) == e < |a| && rest == a[NextLine(a, e)..]
    requires LineEnd(ax) == e < |ax| && ax[..e] == a[..e] && rest + x == ax[NextLine(ax, e)..]
    requires View(rest + x, view) == View(rest, view) + View(x, view)
    ensures View(ax, view) == View(a, view) + View(x, view)
  {
    ViewCut(a, e, rest, view);
    ViewCut(ax, e, rest + x, view);
  }

  /** A text that ends in a line boundary and one that does not continue it are read one
      after the other. */
  lemma {:induction false} ViewBehindBreak(a: string, x: string, view: string -> seq<string>)
    requires view("") == [] && (a == "" || IsBreak(a[|a| - 1])) && !Straddles(a, x)
    ensures View(a + x, view) == View(a, view) + View(x, view)
    decreases |a|
  {
    if a == "" {
      assert a + x == x;
      ViewOneLine("", view);
    } else {
      var e, rest := FirstCut(a, x);
      ViewBehindBreak(rest, x, view);
      ViewTwice(a, a + x, e, rest, x, view);
    }
  }

  lemma {:induction false} BreakInside(s: string, i: nat)
    requires i < |s| && IsBreak(s[|s| - 1])
    ensures BreakFrom(s, i) < |s|
    decreases |s| - i
  {
    if !IsBreak(s[i]) {
      BreakInside(s, i + 1);
    }
  }

  /** A text cut behind some whole lines: those lines, and one more line with the mark. */
  lemma {:induction false} MarkedHead(head: string, mark: string) returns (last: string)
    requires head != "" && !IsSpace(head[|head| - 1]) && mark != "" && OneLine(mark) && !IsSpace(mark[|mark| - 1])
    ensures Lines(head + mark) == Lines(head[..LastLineStart(head)]) + [last]
    ensures last != "" && last[|last| - 1] == mark[|mark| - 1]
  {
    var b := LastLineStart(head);
    var line := head[b..] + mark;
    OneLineConcat(head[b..], mark);
    assert head + mark == head[..b] + line;
    assert !Straddles(head[..b], line);
    assert Seen("") == [];
    ViewBehindBreak(head[..b], line, Seen);
    ViewOneLine(line, Seen);
    LStripEnds(line);
    last := Strip(line);
  }

  lemma {:induction false} LStripEnds(s: string)
    requires s != "" && !IsSpace(s[|s| - 1])
    ensures Strip(s) != "" && Strip(s)[|Strip(s)| - 1] == s[|s| - 1]
  {
    LStripNonBlank(s);
  }

  /** The whole lines kept are the first lines of the text. */
  lemma {:induction false} WholeLinesArePrefix(t: string, m: nat)
    requires m <= |t|
    ensures WholeLines(t, m) <= Lines(t)
  {
    var head := RStrip(t[..m]);
    RStripInside(t[..m]);
    var b := LastLineStart(head);
    assert head == t[..|head|];
    assert t == head[..b] + t[b..];
    assert !Straddles(head[..b], t[b..]);
    assert Seen("") == [];
    ViewBehindBreak(head[..b], t[b..], Seen);
  }

  lemma {:induction false} UnparsedIsEmpty(text: string)
    requires Lines(text) == [] || Lines(text)[0] != VERSION
    ensures Parse(text) == EMPTY
  {}

  /** Stripping the end of a line leaves a beginning of it. */
  lemma {:induction false} StripIsPrefix(s: string)
    requires s != "" && !IsSpace(s[0])
    ensures StartsWith(s, Strip(s))
  {
    RStripFirst(s);
    RStripInside(s);
  }

  lemma {:induction false} FirstLineStarts(s: string)
    requires s != "" && !IsSpace(s[0])
    ensures Lines(s) != [] && StartsWith(s, Lines(s)[0])
  {
    var e := LineEnd(s);
    var line := s[..e];
    assert line != "" && line[0] == s[0] by {
      SpaceAtBreak(s);
    }
    StripKeepsFirst(line);
    StripIsPrefix(line);
    var l := Strip(line);
    assert s[..|l|] == line[..|l|];
    if e == |s| {
      assert line == s;
    }
  }

  lemma {:induction false} SpaceAtBreak(s: string)
    requires s != "" && !IsSpace(s[0])
    ensures LineEnd(s) > 0
  {}

  lemma {:induction false} VersionEnds()
    ensures |VERSION| == 11 && VERSION[10] == '2'
  {}

  lemma {:induction false} NoVersionNoParse(s: string)
    requires s == "" || (!IsSpace(s[0]) && !StartsWith(s, VERSION))
    ensures Parse(s) == EMPTY
  {
    if s == "" {
      ViewOneLine("", Seen);
    } else {
      FirstLineStarts(s);
    }
    UnparsedIsEmpty(s);
  }

  // What a clip leaves to read

  lemma {:induction false} CountKindMore(ls: seq<string>, l: string, artifacts: bool)
    ensures CountKind(ls + [l], artifacts) == CountKind(ls, artifacts) + CountKind([l], artifacts)
  {
    if ls == [] {
      assert ls + [l] == [l];
    } else {
      assert (ls + [l])[1..] == ls[1..] + [l];
      CountKindMore(ls[1..], l, artifacts);
    }
  }

  lemma {:induction false} CountNone(l: string, artifacts: bool)
    requires !IsHeader(Classify(l))
    ensures CountKind([l], artifacts) == 0
  {
    assert [l][1..] == [];
  }

  lemma {:induction false} ReadsMoreAt(ls: seq<string>, last: string, b: nat, n: nat)
    requires !IsHeader(Classify(last)) && b < |ls|
    ensures ReadsAt(ls + [last], b, n) <==> ReadsAt(ls, b, n)
  {
    var more := ls + [last];
    assert more[b + 1..] == ls[b + 1..] + [last];
    CountKindMore(ls[b + 1..], last, true);
    CountKindMore(ls[b + 1..], last, false);
    CountNone(last, true);
    CountNone(last, false);
    assert forall i :: 0 <= i < |ls| ==> more[i] == ls[i];
  }

  /** A last line that is no header changes nothing. */
  lemma {:induction false} ReadsMore(ls: seq<string>, last: string, n: nat)
    requires !IsHeader(Classify(last))
    ensures Reads(ls + [last], n) <==> Reads(ls, n)
  {
    if Reads(ls + [last], n) {
      var b: nat :| ReadsAt(ls + [last], b, n);
      assert b != |ls|;
      ReadsMoreAt(ls, last, b, n);
    }
    if Reads(ls, n) {
      var b: nat :| ReadsAt(ls, b, n);
      ReadsMoreAt(ls, last, b, n);
    }
  }

  /** The whole lines kept by a clip to n characters form a summary with a watermark. */
  ghost predicate CutReads(t: string, n: nat) {
    8 < n < |t| && HasWatermark(WholeLines(t, n - 8))
  }

  lemma {:induction false} ClippedLines(t: string, n: nat) returns (last: string)
    requires Tight(t) && 8 < n < |t|
    ensures Lines(Clip(t, n)) == WholeLines(t, n - 8) + [last]
    ensures !IsHeader(Classify(last))
  {
    StripTight(t);
    var head := RStrip(t[..n - 8]);
    RStripFirst(t[..n - 8]);
    last := MarkedHead(head, " ...[생략]");
    CutIsNoHeader(last);
    ClipIs(t, n);
  }

  lemma {:induction false} ClipIs(t: string, n: nat)
    requires Strip(t) == t && 8 < n < |t|
    ensures Clip(t, n) == RStrip(t[..n - 8]) + " ...[생략]"
  {}

  /** Of a longer text cut to n characters the parser reads watermark k exactly if the
      whole lines kept say so. */
  lemma {:induction false} ClipReads(t: string, n: nat, k: nat)
    requires Tight(t) && n < |t| && k > 0
    ensures Parse(Clip(t, n)).through == k <==> 8 < n && Reads(WholeLines(t, n - 8), k)
  {
    if 8 < n {
      var last := ClippedLines(t, n);
      ParseReads(Lines(Clip(t, n)), k);
      ReadsMore(WholeLines(t, n - 8), last, k);
    } else {
      TooShortToParse(t, n);
    }
  }

  lemma {:induction false} TooShortToParse(t: string, n: nat)
    requires Tight(t) && n <= 8 && n < |t|
    ensures Parse(Clip(t, n)) == EMPTY
  {
    StripTight(t);
    VersionEnds();
    NoVersionNoParse(t[..n]);
  }

  /** Watermarks read from a text and from its beginning are the same. */
  lemma {:induction false} SameCoverage(a: seq<string>, ls: seq<string>, m: nat, n: nat)
    requires a <= ls && Reads(a, m) && Reads(ls, n)
    ensures m == n
  {
    var b: nat :| ReadsAt(a, b, m);
    var c: nat :| ReadsAt(ls, c, n);
    assert a[3] == ls[3];
  }

  /** Whether the parser finds a watermark in a text. */
  lemma {:induction false} WatermarkReads(text: string)
    ensures Parse(text).through > 0 <==> HasWatermark(Lines(text))
  {
    var n := Parse(text).through;
    if n > 0 {
      ParseReads(Lines(text), n);
    }
    if HasWatermark(Lines(text)) {
      var k: nat :| Reads(Lines(text), k);
      ParseReads(Lines(text), k);
    }
  }

  /** Whether it finds one in a longer text cut to n characters. */
  lemma {:induction false} ClipHasWatermark(t: string, n: nat)
    requires Tight(t) && n < |t|
    ensures Parse(Clip(t, n)).through > 0 <==> CutReads(t, n)
  {
    var m := Parse(Clip(t, n)).through;
    if m > 0 {
      ClipReads(t, n, m);
    }
    if CutReads(t, n) {
      var k: nat :| Reads(WholeLines(t, n - 8), k);
      ClipReads(t, n, k);
    }
  }

  /** A clip keeps the watermark exactly if the lines it keeps have one just when the
      text has. */
  lemma {:induction false} ClipKeepsWatermarkIff(t: string, n: nat)
    requires Tight(t) && n < |t|
    ensures Parse(Clip(t, n)).through == Parse(t).through <==> (CutReads(t, n) <==> HasWatermark(Lines(t)))
  {
    ClipHasWatermark(t, n);
    WatermarkReads(t);
    var m, k := Parse(t).through, Parse(Clip(t, n)).through;
    if m > 0 && k > 0 {
      ParseReads(Lines(t), m);
      ClipReads(t, n, k);
      WholeLinesArePrefix(t, n - 8);
      SameCoverage(WholeLines(t, n - 8), Lines(t), k, m);
    }
  }
}
