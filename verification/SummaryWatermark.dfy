/** When the parser recovers the watermark and the lists of a printed summary. */
module SummaryWatermark {
  import opened Text
  import opened TieredSummary
  import opened SummaryRoundTrip

  // The lines of a printed summary

  lemma {:induction false} LinesOfJoin(ls: seq<string>)
    ensures Lines(Join(ls, NL)) == ViewAll(ls, Lines)
  {
    if ls == [] {
      ViewOneLine("", Seen);
    } else if |ls| == 1 {
      assert ViewAll(ls[1..], Lines) == [];
    } else {
      LinesOfJoin(ls[1..]);
      assert Seen("") == [];
      ViewNewline(ls[0], Join(ls[1..], NL), Seen);
    }
  }

  lemma {:induction false} LinesOfSections(ls: seq<string>)
    ensures Lines(Join(ls, NL + NL)) == ViewAll(ls, Lines)
  {
    if ls == [] {
      ViewOneLine("", Seen);
    } else if |ls| == 1 {
      assert ViewAll(ls[1..], Lines) == [];
    } else {
      LinesOfSections(ls[1..]);
      assert Seen("") == [];
      ViewGap(ls[0], Join(ls[1..], NL + NL), Seen);
    }
  }

  function Tier2Shown(ls: seq<string>): seq<string> {
    var p := Tier2Printed(ls);
    if p == [] then [TIER2_EMPTY] else ViewAll(p, Lines)
  }

  function DiscoveriesShown(ls: seq<string>): seq<string> {
    var p := DiscoveriesPrinted(ls);
    if p == [] then [] else [ARTIFACTS_HEADER] + ViewAll(p, Lines)
  }

  lemma {:induction false} ViewAllTwo(a: string, b: string, view: string -> seq<string>)
    ensures ViewAll([a, b], view) == view(a) + view(b)
  {
    assert [a, b][1..] == [b] && [b][1..] == [];
    assert ViewAll([b], view) == view(b);
  }

  lemma {:induction false} ViewAllCons(a: string, ls: seq<string>, view: string -> seq<string>)
    ensures ViewAll([a] + ls, view) == view(a) + ViewAll(ls, view)
  {
    assert ([a] + ls)[1..] == ls;
  }

  lemma {:induction false} Tier3SectionLines(coverage: string, body: string)
    requires Lines(coverage) == [coverage]
    ensures Lines(Join([TIER3_HEADER, NOTICE, coverage, body], NL))
            == [TIER3_HEADER, NOTICE, coverage] + Lines(body)
  {
    LinesOfJoin([TIER3_HEADER, NOTICE, coverage, body]);
    Tier3HeaderIsALine();
    NoticeIsALine();
    assert [TIER3_HEADER, NOTICE, coverage, body] == [TIER3_HEADER] + ([NOTICE] + [coverage, body]);
    ViewAllCons(TIER3_HEADER, [NOTICE] + [coverage, body], Lines);
    ViewAllCons(NOTICE, [coverage, body], Lines);
    ViewAllTwo(coverage, body, Lines);
  }

  lemma {:induction false} Tier2SectionLines(t2: seq<string>)
    ensures Lines(Join([TIER2_HEADER, if Tier2Printed(t2) == [] then TIER2_EMPTY else Join(Tier2Printed(t2), NL)], NL))
            == [TIER2_HEADER] + Tier2Shown(t2)
  {
    var p := Tier2Printed(t2);
    var body := if p == [] then TIER2_EMPTY else Join(p, NL);
    LinesOfJoin([TIER2_HEADER, body]);
    Tier2HeaderIsALine();
    ViewAllTwo(TIER2_HEADER, body, Lines);
    Tier2EmptyIsALine();
    LinesOfJoin(p);
  }

  lemma {:induction false} DiscoverySectionLines(p: seq<string>)
    ensures Lines(Join([ARTIFACTS_HEADER, Join(p, NL)], NL)) == [ARTIFACTS_HEADER] + ViewAll(p, Lines)
  {
    LinesOfJoin([ARTIFACTS_HEADER, Join(p, NL)]);
    ArtifactsHeaderIsALine();
    ViewAllTwo(ARTIFACTS_HEADER, Join(p, NL), Lines);
    LinesOfJoin(p);
  }

  lemma {:induction false} SectionLines(v: string, a: string, b: string, last: seq<string>)
    requires |last| <= 1
    ensures ViewAll([v, a, b] + last, Lines) ==
            Lines(v) + (Lines(a) + (Lines(b) + if last == [] then [] else Lines(last[0])))
  {
    assert [v, a, b] + last == [v] + ([a] + ([b] + last));
    ViewAllCons(v, [a] + ([b] + last), Lines);
    ViewAllCons(a, [b] + last, Lines);
    ViewAllCons(b, last, Lines);
    if last != [] {
      assert last[1..] == [];
    }
  }

  lemma {:induction false} FormatLines(tier3: string, through: int, t2: seq<string>, d: seq<string>)
    ensures Lines(Format(tier3, through, t2, d)) ==
            [VERSION] + (([TIER3_HEADER, NOTICE, Coverage(through)] + Lines(Tier3Text(tier3)))
                         + (([TIER2_HEADER] + Tier2Shown(t2)) + DiscoveriesShown(d)))
  {
    var p := DiscoveriesPrinted(d);
    var a := Join([TIER3_HEADER, NOTICE, Coverage(through), Tier3Text(tier3)], NL);
    var b := Join([TIER2_HEADER, if Tier2Printed(t2) == [] then TIER2_EMPTY else Join(Tier2Printed(t2), NL)], NL);
    var last := if p == [] then [] else [Join([ARTIFACTS_HEADER, Join(p, NL)], NL)];
    assert Sections(tier3, through, t2, d) == [VERSION, a, b] + last;
    LinesOfSections([VERSION, a, b] + last);
    SectionLines(VERSION, a, b, last);
    VersionIsALine();
    CoverageReadsBack(through);
    Tier3SectionLines(Coverage(through), Tier3Text(tier3));
    Tier2SectionLines(t2);
    DiscoverySectionLines(p);
  }

  // The parser over those lines

  lemma {:induction false} RunConcat(st: State, a: seq<string>, b: seq<string>, kind: string -> Kind)
    ensures Run(st, a + b, kind) ==
      match Run(st, a, kind)
      case None => None
      case Some(s) => Run(s, b, kind)
    decreases |a|
  {
    if a == [] {
      assert a + b == b;
    } else {
      assert (a + b)[1..] == a[1..] + b;
      var next := Step(st, kind(a[0]), a[0]);
      if next.Some? {
        RunConcat(next.value, a[1..], b, kind);
      }
    }
  }

  /** One line more at the end. */
  lemma {:induction false} RunOne(st: State, l: string, kind: string -> Kind)
    ensures Run(st, [l], kind) == Step(st, kind(l), l)
  {
    RunStep(st, l, [], kind);
    assert [l] + [] == [l];
  }

  lemma {:induction false} RunOpening(h: string, notice: string, range: string, n: nat, kind: string -> Kind)
    requires kind(h).Tier3Header? && kind(notice).Notice?
    requires (kind(range).NoRange? && n == 0) || kind(range) == Range(Some(n))
    ensures Run(START, [h, notice, range], kind) == Some(State(Body, [], n, [], []))
  {
    RunStep(START, h, [notice, range], kind);
    RunStep(START.(section := AtNotice), notice, [range], kind);
    RunOne(START.(section := AtRange), range, kind);
    assert [h] + [notice, range] == [h, notice, range] && [notice] + [range] == [notice, range];
  }

  lemma {:induction false} RunFront(through: int)
    ensures Run(START, [TIER3_HEADER, NOTICE, Coverage(through)], Classify)
            == Some(State(Body, [], Positive(through), [], []))
  {
    KindsOfReserved();
    CoverageReadsBack(through);
    RunOpening(TIER3_HEADER, NOTICE, Coverage(through), Positive(through), Classify);
  }

  lemma {:induction false} RunProse(st: State, ls: seq<string>, kind: string -> Kind)
    requires st.section.Body? && ls != []
    requires forall i {:trigger ls[i]} :: 0 <= i < |ls| ==> var k := kind(ls[i]); k.Prose?
    ensures Run(st, ls, kind) == Some(st.(tier3 := st.tier3 + ls))
    decreases |ls|
  {
    var next := st.(tier3 := st.tier3 + [ls[0]]);
    assert Run(st, ls, kind) == Run(next, ls[1..], kind);
    if |ls| > 1 {
      RunProse(next, ls[1..], kind);
      assert st.tier3 + [ls[0]] + ls[1..] == st.tier3 + ls;
    } else {
      assert ls == [ls[0]];
    }
  }

  /** The Tier 3 lines a parser of the printed text collects. */
  function Collected(tier3: string): seq<string> {
    if Lines(Tier3Text(tier3)) == [TIER3_EMPTY] then [] else Lines(Tier3Text(tier3))
  }

  /** A placeholder leaves the parser where it is. */
  lemma {:induction false} RunPlaceholder(st: State, l: string, kind: string -> Kind)
    requires (st.section.Body? && kind(l).Tier3Empty?) || (st.section.Tier2? && kind(l).Tier2Empty?)
    ensures Run(st, [l], kind) == Some(st)
  {
    RunOne(st, l, kind);
  }

  lemma {:induction false} RunBody(tier3: string, n: nat)
    ensures Run(State(Body, [], n, [], []), Lines(Tier3Text(tier3)), Classify)
            == Some(State(Body, Collected(tier3), n, [], []))
    ensures AllProse(Collected(tier3), Classify)
  {
    var st, ls := State(Body, [], n, [], []), Lines(Tier3Text(tier3));
    assert AllProse(ls, Classify) || ls == [TIER3_EMPTY] by {
      Tier3TextIsProse(tier3);
    }
    if ls == [TIER3_EMPTY] {
      Tier3EmptyIsALine();
      RunPlaceholder(st, TIER3_EMPTY, Classify);
    } else if ls != [] {
      RunProse(st, ls, Classify);
      assert [] + ls == ls;
    }
  }

  lemma {:induction false} RunSections(a: seq<string>, body: seq<string>, h: string, tail: seq<string>,
                                       st: State, next: State, kind: string -> Kind)
    requires Run(START, a, kind) == Some(st) && Run(st, body, kind) == Some(next)
    requires next.section.Body? && kind(h).Tier2Header?
    ensures Run(START, (a + body) + ([h] + tail), kind) == Run(next.(section := Tier2), tail, kind)
  {
    RunConcat(START, a, body, kind);
    RunConcat(START, a + body, [h] + tail, kind);
    RunStep(next, h, tail, kind);
  }

  lemma {:induction false} ParseBehindVersion(text: string, ls: seq<string>)
    requires Lines(text) == [VERSION] + ls
    ensures Parse(text) == Finish(Run(START, ls, Classify))
  {
    assert ([VERSION] + ls)[1..] == ls;
  }

  lemma {:induction false} RunUpToTier2(tier3: string, through: int) returns (front: seq<string>)
    ensures front == ([TIER3_HEADER, NOTICE, Coverage(through)] + Lines(Tier3Text(tier3))) + [TIER2_HEADER]
    ensures Run(START, front, Classify) == Some(State(Tier2, Collected(tier3), Positive(through), [], []))
  {
    var a, body := [TIER3_HEADER, NOTICE, Coverage(through)], Lines(Tier3Text(tier3));
    front := (a + body) + [TIER2_HEADER];
    RunFront(through);
    RunBody(tier3, Positive(through));
    assert Classify(TIER2_HEADER).Tier2Header? by {
      KindsOfReserved();
    }
    RunSections(a, body, TIER2_HEADER, [], State(Body, [], Positive(through), [], []),
                State(Body, Collected(tier3), Positive(through), [], []), Classify);
    assert [TIER2_HEADER] + [] == [TIER2_HEADER];
  }

  lemma {:induction false} Regroup(v: seq<string>, a: seq<string>, h: seq<string>, x: seq<string>, y: seq<string>)
    ensures v + (a + ((h + x) + y)) == v + ((a + h) + (x + y))
  {}

  /** The printed text as what leads the parser to Tier 2 and what is left for it. */
  lemma {:induction false} FormatFront(tier3: string, through: int, t2: seq<string>, d: seq<string>)
    returns (front: seq<string>, tail: seq<string>)
    ensures tail == Tier2Shown(t2) + DiscoveriesShown(d)
    ensures Lines(Format(tier3, through, t2, d)) == [VERSION] + (front + tail)
    ensures Run(START, front, Classify) == Some(State(Tier2, Collected(tier3), Positive(through), [], []))
  {
    tail := Tier2Shown(t2) + DiscoveriesShown(d);
    front := RunUpToTier2(tier3, through);
    assert Lines(Format(tier3, through, t2, d)) == [VERSION] + (front + tail) by {
      FormatLines(tier3, through, t2, d);
      Regroup([VERSION], [TIER3_HEADER, NOTICE, Coverage(through)] + Lines(Tier3Text(tier3)), [TIER2_HEADER],
              Tier2Shown(t2), DiscoveriesShown(d));
    }
  }

  /** What parsing the whole printed text comes down to. */
  lemma {:induction false} ParseFormat(tier3: string, through: int, t2: seq<string>, d: seq<string>)
    ensures Parse(Format(tier3, through, t2, d)) ==
            Finish(Run(State(Tier2, Collected(tier3), Positive(through), [], []),
                       Tier2Shown(t2) + DiscoveriesShown(d), Classify))
  {
    var front, tail := FormatFront(tier3, through, t2, d);
    ParseBehindVersion(Format(tier3, through, t2, d), front + tail);
    RunConcat(START, front, tail, Classify);
  }

  // When the watermark is recovered

  function CountKind(ls: seq<string>, artifacts: bool): nat {
    if ls == [] then 0
    else
      var k := Classify(ls[0]);
      CountKind(ls[1..], artifacts)
      + if (artifacts && k.ArtifactsHeader?) || (!artifacts && (k.Tier3Header? || k.Tier2Header?)) then 1 else 0
  }

  /** No tier header, and at most `room` artifact headers. */
  predicate Orderly(ls: seq<string>, room: nat) {
    CountKind(ls, false) == 0 && CountKind(ls, true) <= room
  }

  lemma {:induction false} RunTail(st: State, ls: seq<string>)
    requires st.section.Tier2? || st.section.Discoveries?
    ensures Run(st, ls, Classify).Some? <==> Orderly(ls, if st.section.Tier2? then 1 else 0)
    ensures Run(st, ls, Classify).Some? ==>
      var r := Run(st, ls, Classify).value;
      (r.section.Tier2? || r.section.Discoveries?) && r.through == st.through && r.tier3 == st.tier3
    decreases |ls|
  {
    if ls != [] {
      var next := Step(st, Classify(ls[0]), ls[0]);
      if next.Some? {
        RunTail(next.value, ls[1..]);
      }
    }
  }

  /** For every Tier 3 text the parser recovers the watermark, unless a Tier 2 or discovery
      line is a section header out of order; a watermark of 0 is recovered always. */
  lemma {:induction false} WatermarkIff(tier3: string, through: int, t2: seq<string>, d: seq<string>)
    ensures Parse(Format(tier3, through, t2, d)).through == Positive(through)
            <==> through <= 0 || Orderly(Tier2Shown(t2) + DiscoveriesShown(d), 1)
  {
    ParseFormat(tier3, through, t2, d);
    RunTail(State(Tier2, Collected(tier3), Positive(through), [], []), Tier2Shown(t2) + DiscoveriesShown(d));
  }

  /** A line of its own that is no section header (nor, in Tier 2, the placeholder). */
  predicate PlainLine(l: string, tier2: bool) {
    OneLine(l) && !IsHeader(Classify(Strip(l))) && (tier2 ==> !Classify(Strip(l)).Tier2Empty?)
  }

  predicate PlainLines(ls: seq<string>, tier2: bool) {
    forall k {:trigger ls[k]} :: 0 <= k < |ls| ==> PlainLine(ls[k], tier2)
  }

  /** Settled lines that are no headers (nor, in Tier 2, the placeholder). */
  ghost predicate PlainTo(ls: seq<string>, kind: string -> Kind, tier2: bool) {
    Settled(ls) && forall k {:trigger ls[k]} :: 0 <= k < |ls| ==>
      !IsHeader(kind(ls[k])) && (tier2 ==> !kind(ls[k]).Tier2Empty?)
  }

  lemma {:induction false} RStripFirst(s: string)
    requires s != "" && !IsSpace(s[0])
    ensures RStrip(s) != "" && RStrip(s)[0] == s[0]
  {
    if IsSpace(s[|s| - 1]) {
      RStripFirst(s[..|s| - 1]);
    }
  }

  /** A settled line whose last character is c. */
  ghost predicate SettledEndingIn(s: string, c: char) {
    s != "" && OneLine(s) && Tight(s) && s[|s| - 1] == c
  }

  lemma {:induction false} CutLine(t: string, n: nat, mark: string, c: char)
    requires 0 < n <= |t| && OneLine(t) && !IsSpace(t[0])
    requires mark != "" && OneLine(mark) && mark[|mark| - 1] == c && !IsSpace(c)
    ensures SettledEndingIn(RStrip(t[..n]) + mark, c)
  {
    RStripFirst(t[..n]);
    RStripOneLine(t[..n]);
    OneLineConcat(RStrip(t[..n]), mark);
  }

  lemma {:induction false} ClipCut(t: string, n: nat)
    requires 0 < n <= |t| && OneLine(t) && !IsSpace(t[0])
    ensures SettledEndingIn(RStrip(t[..n]) + " ...[생략]", ']')
  {
    CutLine(t, n, " ...[생략]", ']');
  }

  /** A one-line text is clipped to itself or to a line that ends in a bracket. */
  lemma {:induction false} ClipCases(l: string, n: nat)
    requires n > 8 && OneLine(Strip(l)) && Strip(l) != ""
    ensures Clip(l, n) == Strip(l) || SettledEndingIn(Clip(l, n), ']')
  {
    if |Strip(l)| > n {
      ClipCut(Strip(l), n - 8);
    }
  }

  lemma {:induction false} CutIsNoHeader(s: string)
    requires s != "" && s[|s| - 1] == ']'
    ensures !IsHeader(Classify(s)) && !Classify(s).Tier2Empty?
  {}

  lemma {:induction false} ClipPlain(l: string, tier2: bool, n: nat)
    requires n > 8 && PlainLine(l, tier2) && Strip(l) != ""
    ensures PlainTo([Clip(l, n)], Classify, tier2)
  {
    StripOneLine(l);
    ClipCases(l, n);
    var c := Clip(l, n);
    if c != Strip(l) {
      CutIsNoHeader(c);
    }
  }

  lemma {:induction false} ClipLinesPlain(ls: seq<string>, tier2: bool, n: nat)
    requires n > 8 && PlainLines(ls, tier2)
    ensures PlainTo(ClipLines(ls, n), Classify, tier2)
  {
    if ls != [] {
      ClipLinesPlain(ls[1..], tier2, n);
      if Strip(ls[0]) != "" {
        ClipPlain(ls[0], tier2, n);
        assert [Clip(ls[0], n)][0] == Clip(ls[0], n);
      }
    }
  }

  lemma {:induction false} LinesOfSettled(ls: seq<string>)
    requires Settled(ls)
    ensures ViewAll(ls, Lines) == ls
  {
    if ls != [] {
      LinesOfLine(ls[0]);
      LinesOfSettled(ls[1..]);
    }
  }

  lemma {:induction false} RunTier2(st: State, ls: seq<string>, kind: string -> Kind)
    requires st.section.Tier2? && ls != []
    requires forall i {:trigger ls[i]} :: 0 <= i < |ls| ==> var k := kind(ls[i]); !IsHeader(k) && !k.Tier2Empty?
    ensures Run(st, ls, kind) == Some(st.(tier2 := st.tier2 + ls))
    decreases |ls|
  {
    var next := st.(tier2 := st.tier2 + [ls[0]]);
    assert Run(st, ls, kind) == Run(next, ls[1..], kind);
    if |ls| > 1 {
      RunTier2(next, ls[1..], kind);
      assert st.tier2 + [ls[0]] + ls[1..] == st.tier2 + ls;
    } else {
      assert ls == [ls[0]];
    }
  }

  lemma {:induction false} RunDiscoveries(st: State, ls: seq<string>, kind: string -> Kind)
    requires st.section.Discoveries? && ls != []
    requires forall i {:trigger ls[i]} :: 0 <= i < |ls| ==> var k := kind(ls[i]); !IsHeader(k)
    ensures Run(st, ls, kind) == Some(st.(discoveries := st.discoveries + ls))
    decreases |ls|
  {
    var next := st.(discoveries := st.discoveries + [ls[0]]);
    assert Run(st, ls, kind) == Run(next, ls[1..], kind);
    if |ls| > 1 {
      RunDiscoveries(next, ls[1..], kind);
      assert st.discoveries + [ls[0]] + ls[1..] == st.discoveries + ls;
    } else {
      assert ls == [ls[0]];
    }
  }

  lemma {:induction false} RunTier2Shown(st: State, t2: seq<string>)
    requires st.section.Tier2? && st.tier2 == [] && PlainLines(t2, true)
    ensures Run(st, Tier2Shown(t2), Classify) == Some(st.(tier2 := Tier2Printed(t2)))
  {
    var p := Tier2Printed(t2);
    ClipLinesPlain(t2, true, TIER2_CHARS);
    if p == [] {
      Tier2EmptyIsALine();
      RunPlaceholder(st, TIER2_EMPTY, Classify);
    } else {
      LinesOfSettled(p);
      RunTier2(st, p, Classify);
      assert [] + p == p;
    }
  }

  lemma {:induction false} RunArtifacts(st: State, h: string, p: seq<string>, kind: string -> Kind)
    requires st.section.Tier2? && st.discoveries == [] && p != [] && kind(h).ArtifactsHeader?
    requires forall i {:trigger p[i]} :: 0 <= i < |p| ==> !IsHeader(kind(p[i]))
    ensures Run(st, [h] + p, kind) == Some(st.(section := Discoveries, discoveries := p))
  {
    RunStep(st, h, p, kind);
    RunDiscoveries(st.(section := Discoveries), p, kind);
    assert [] + p == p;
  }

  lemma {:induction false} RunDiscoveriesShown(st: State, d: seq<string>)
    requires st.section.Tier2? && st.discoveries == [] && PlainLines(d, false)
    ensures Finish(Run(st, DiscoveriesShown(d), Classify))
            == Parsed(Strip(Join(st.tier3, NL)), st.through, st.tier2, DiscoveriesPrinted(d))
  {
    var p := DiscoveriesPrinted(d);
    ClipLinesPlain(d, false, DISCOVERY_CHARS);
    if p != [] {
      LinesOfSettled(p);
      KindsOfReserved();
      RunArtifacts(st, ARTIFACTS_HEADER, p, Classify);
    }
  }

  /** With single-line Tier 2 and discovery lines that are no headers the parser recovers
      everything printed: the watermark, both lists, and the printed procedure. */
  lemma {:induction false} ParseRecovers(tier3: string, through: int, t2: seq<string>, d: seq<string>)
    requires PlainLines(t2, true) && PlainLines(d, false)
    ensures Parse(Format(tier3, through, t2, d)) ==
            Parsed(Strip(Join(Collected(tier3), NL)), Positive(through), Tier2Printed(t2), DiscoveriesPrinted(d))
  {
    var st := State(Tier2, Collected(tier3), Positive(through), [], []);
    ParseFormat(tier3, through, t2, d);
    RunTier2Shown(st, t2);
    RunConcat(st, Tier2Shown(t2), DiscoveriesShown(d), Classify);
    RunDiscoveriesShown(st.(tier2 := Tier2Printed(t2)), d);
  }
}
