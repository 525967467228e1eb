/** Operations that rewrite a stored summary, and what they do to its watermark: printing it
    again, flushing a phase, and compacting it for a resumed run. */
module SummaryRewrites {
  import opened Text
  import opened TieredSummary
  import opened SummaryRoundTrip
  import opened SummaryWatermark
  import opened SummaryCuts

  // What a parsed summary holds

  ghost predicate PlainState(st: State, kind: string -> Kind) {
    PlainTo(st.tier2, kind, true) && PlainTo(st.discoveries, kind, false)
  }

  lemma {:induction false} RunPlain(st: State, ls: seq<string>, kind: string -> Kind)
    requires PlainState(st, kind) && Settled(ls)
    ensures Run(st, ls, kind).Some? ==> PlainState(Run(st, ls, kind).value, kind)
    decreases |ls|
  {
    if ls != [] {
      var next := Step(st, kind(ls[0]), ls[0]);
      if next.Some? {
        RunPlain(next.value, ls[1..], kind);
      }
    }
  }

  lemma {:induction false} ParsedIsPlain(text: string) returns (p: Parsed)
    ensures p == Parse(text)
    ensures PlainTo(p.tier2, Classify, true) && PlainTo(p.discoveries, Classify, false)
  {
    p := Parse(text);
    var ls := Lines(text);
    LinesSettled(text);
    if ls != [] {
      RunPlain(START, ls[1..], Classify);
    }
  }

  lemma {:induction false} PlainToPlainLines(ls: seq<string>, tier2: bool)
    requires PlainTo(ls, Classify, tier2)
    ensures PlainLines(ls, tier2)
  {
    forall k | 0 <= k < |ls|
      ensures PlainLine(ls[k], tier2)
    {
      StripTight(ls[k]);
    }
  }

  /** Printing what was parsed, with any Tier 3 text and any selection of the parsed lines,
      keeps the watermark and prints the selection. */
  lemma {:induction false} ReprintRecovers(tier3: string, through: nat, t2: seq<string>, d: seq<string>)
    requires PlainTo(t2, Classify, true) && PlainTo(d, Classify, false)
    ensures Parse(Format(tier3, through, t2, d)).through == through
    ensures Parse(Format(tier3, through, t2, d)).tier2 == Tier2Printed(t2)
    ensures Parse(Format(tier3, through, t2, d)).discoveries == DiscoveriesPrinted(d)
  {
    PlainToPlainLines(t2, true);
    PlainToPlainLines(d, false);
    ParseRecovers(tier3, through, t2, d);
  }

  // Flushing

  function Without(ls: seq<string>, drop: string -> bool): seq<string> {
    if ls == [] then []
    else if drop(Strip(ls[0])) then Without(ls[1..], drop)
    else [ls[0]] + Without(ls[1..], drop)
  }

  /** One flush: its milestone line, the configured size, and which lines are milestones. */
  datatype Flush = Flush(milestone: string, chars: nat, isMilestone: string -> bool)

  /** The characters a flush leaves for the procedure. */
  function Room(f: Flush): nat {
    var budget := if f.chars < TIER3_CHARS then f.chars else TIER3_CHARS;
    if budget > |f.milestone| + 1 then budget - |f.milestone| - 1 else 0
  }

  /** The milestone behind what is kept of the procedure. */
  function WithMilestone(kept: string, milestone: string): string {
    if kept == "" then milestone else Strip(kept + NL + milestone)
  }

  function Fitted(procedure: string, room: nat): string {
    if room > 0 then TailClip(procedure, room) else ""
  }

  /** The procedure a flush carries on. */
  function Carried(tier3: string, f: Flush): string {
    WithMilestone(Fitted(Strip(Join(Without(SplitLines(tier3), f.isMilestone), NL)), Room(f)), f.milestone)
  }

  /** The summary flush_agent_context leaves. */
  function Flushed(previous: string, f: Flush): string {
    var p := Parse(previous);
    Format(Carried(p.tier3, f), p.through, [], p.discoveries)
  }

  /** Whatever the summary, a flush keeps its watermark and its discoveries as printed. */
  lemma {:induction false} FlushKeepsWatermark(previous: string, f: Flush)
    ensures Parse(Flushed(previous, f)).through == Parse(previous).through
    ensures Parse(Flushed(previous, f)).discoveries == DiscoveriesPrinted(Parse(previous).discoveries)
    ensures Parse(Flushed(previous, f)).tier2 == []
  {
    var p := ParsedIsPlain(previous);
    ReprintRecovers(Carried(p.tier3, f), p.through, [], p.discoveries);
  }

  function FlushedBy(summary: string, fs: seq<Flush>): string
    decreases |fs|
  {
    if fs == [] then summary else FlushedBy(Flushed(summary, fs[0]), fs[1..])
  }

  /** And so does any number of flushes. */
  lemma {:induction false} FlushesKeepWatermark(summary: string, fs: seq<Flush>)
    ensures Parse(FlushedBy(summary, fs)).through == Parse(summary).through
    decreases |fs|
  {
    if fs != [] {
      FlushKeepsWatermark(summary, fs[0]);
      FlushesKeepWatermark(Flushed(summary, fs[0]), fs[1..]);
    }
  }

  // Compacting

  predicate HoldsSomething(p: Parsed) {
    p.tier3 != "" || p.through != 0 || p.tier2 != [] || p.discoveries != []
  }

  predicate Tiered(source: string) {
    StartsWith(source, VERSION) && (HoldsSomething(Parse(source)) || source == Format("", 0, [], []))
  }

  function Last(ls: seq<string>, n: nat): seq<string> {
    if |ls| <= n then ls else ls[|ls| - n..]
  }

  /** compact_resume_summary. */
  function Compacted(summary: string, tier2: nat, chars: nat, discoveries: nat): string {
    var source := Strip(summary);
    var p := Parse(source);
    if !Tiered(source) then Clip(source, chars)
    else
      var tier3 := if |p.tier3| <= chars then p.tier3 else p.tier3[|p.tier3| - chars..];
      Format(tier3, p.through, Last(p.tier2, tier2), Last(p.discoveries, discoveries))
  }

  lemma {:induction false} LastIsPlain(ls: seq<string>, n: nat, kind: string -> Kind, tier2: bool)
    requires PlainTo(ls, kind, tier2)
    ensures PlainTo(Last(ls, n), kind, tier2)
  {}

  lemma {:induction false} ParseIgnoresSpace(summary: string)
    ensures Parse(Strip(summary)) == Parse(summary)
  {
    LinesStrip(summary);
  }

  /** Of a tiered summary compaction keeps the watermark and the last lines of both lists. */
  lemma {:induction false} CompactionKeepsTiered(summary: string, tier2: nat, chars: nat, discoveries: nat)
    requires Tiered(Strip(summary))
    ensures Parse(Compacted(summary, tier2, chars, discoveries)).through == Parse(summary).through
    ensures Parse(Compacted(summary, tier2, chars, discoveries)).tier2
            == Tier2Printed(Last(Parse(summary).tier2, tier2))
    ensures Parse(Compacted(summary, tier2, chars, discoveries)).discoveries
            == DiscoveriesPrinted(Last(Parse(summary).discoveries, discoveries))
  {
    ParseIgnoresSpace(summary);
    var p := ParsedIsPlain(Strip(summary));
    LastIsPlain(p.tier2, tier2, Classify, true);
    LastIsPlain(p.discoveries, discoveries, Classify, false);
    var tier3 := if |p.tier3| <= chars then p.tier3 else p.tier3[|p.tier3| - chars..];
    ReprintRecovers(tier3, p.through, Last(p.tier2, tier2), Last(p.discoveries, discoveries));
  }

  /** A text that does not start with the version line still does not after a clip. */
  lemma {:induction false} ClipKeepsNoVersion(t: string, n: nat)
    requires Tight(t) && t != "" && !StartsWith(t, VERSION)
    ensures Clip(t, n) == "" || (!IsSpace(Clip(t, n)[0]) && !StartsWith(Clip(t, n), VERSION))
  {
    StripTight(t);
    VersionEnds();
    var omission := " ...[생략]";
    if |t| > n && n > |omission| {
      var r := RStrip(t[..n - |omission|]);
      RStripFirst(t[..n - |omission|]);
      RStripInside(t[..n - |omission|]);
      NotThroughTheCut(t, r, omission);
    } else if |t| > n && n > 0 {
      assert forall k :: 0 <= k <= n ==> t[..n][..k] == t[..k];
    }
  }

  lemma {:induction false} NotThroughTheCut(t: string, r: string, omission: string)
    requires !StartsWith(t, VERSION) && |r| <= |t| && r == t[..|r|] && omission == " ...[생략]"
    ensures !StartsWith(r + omission, VERSION)
  {
    VersionEnds();
    var c := r + omission;
    if |r| > 10 {
      assert c[..11] == t[..11];
    } else if |c| > 10 {
      assert c[..11][10] == omission[10 - |r|] != '2';
    }
  }

  /** A text without the version line has watermark 0, before and after compaction. */
  lemma {:induction false} CompactionOfOther(summary: string, tier2: nat, chars: nat, discoveries: nat)
    requires !StartsWith(Strip(summary), VERSION)
    ensures Parse(summary) == EMPTY && Parse(Compacted(summary, tier2, chars, discoveries)) == EMPTY
  {
    var t := Strip(summary);
    ParseIgnoresSpace(summary);
    NoVersionNoParse(t);
    if t != "" {
      ClipKeepsNoVersion(t, chars);
    }
    NoVersionNoParse(Clip(t, chars));
  }

  /** Compaction keeps the watermark of every tiered summary and of every text that is no
      summary at all. A damaged summary has none, and gets one exactly if the whole lines
      left by the clip have one: the header that damaged it is cut away. */
  lemma {:induction false} CompactionKeepsWatermarkIff(summary: string, tier2: nat, chars: nat, discoveries: nat)
    ensures Parse(Compacted(summary, tier2, chars, discoveries)).through == Parse(summary).through
            <==> Tiered(Strip(summary)) || !StartsWith(Strip(summary), VERSION)
                 || !CutReads(Strip(summary), chars)
  {
    var t := Strip(summary);
    ParseIgnoresSpace(summary);
    if Tiered(t) {
      CompactionKeepsTiered(summary, tier2, chars, discoveries);
    } else if !StartsWith(t, VERSION) {
      CompactionOfOther(summary, tier2, chars, discoveries);
    } else {
      assert !HoldsSomething(Parse(t));
      if chars < |t| {
        ClipHasWatermark(t, chars);
      } else {
        StripTight(t);
      }
    }
  }

  /** Compaction never lowers a watermark. */
  lemma {:induction false} CompactionNeverLowers(summary: string, tier2: nat, chars: nat, discoveries: nat)
    ensures Parse(Compacted(summary, tier2, chars, discoveries)).through >= Parse(summary).through
  {
    ParseIgnoresSpace(summary);
    CompactionKeepsWatermarkIff(summary, tier2, chars, discoveries);
  }

  const RESUME_TIER2_LINES := 6
  const RESUME_DISCOVERIES := 4
  const RESUME_OTHER_CHARS := 2000

  /** _compact_summary_for_resume. */
  function ResumeSummary(summary: string): string {
    if Strip(summary) == "" then ""
    else if !StartsWith(summary, VERSION) then Clip(summary, RESUME_OTHER_CHARS)
    else Compacted(summary, RESUME_TIER2_LINES, 0, RESUME_DISCOVERIES)
  }

  lemma {:induction false} BlankIsUnparsed(summary: string)
    requires Strip(summary) == ""
    ensures Parse(summary) == EMPTY && Parse("") == EMPTY
  {
    ParseIgnoresSpace(summary);
    NoVersionNoParse("");
  }

  /** A resume keeps the watermark of every text that starts with the version line or fits.
      A longer one, tiered behind leading white space or no summary at all, is clipped: it
      keeps its watermark exactly if the whole lines left have one just when it had one. */
  lemma {:induction false} ResumeKeepsWatermarkIff(summary: string)
    ensures Parse(ResumeSummary(summary)).through == Parse(summary).through
            <==> StartsWith(summary, VERSION) || |Strip(summary)| <= RESUME_OTHER_CHARS
                 || (CutReads(Strip(summary), RESUME_OTHER_CHARS) <==> HasWatermark(Lines(summary)))
  {
    var t := Strip(summary);
    if t == "" {
      BlankIsUnparsed(summary);
    } else if StartsWith(summary, VERSION) {
      CompactionKeepsWatermarkIff(summary, RESUME_TIER2_LINES, 0, RESUME_DISCOVERIES);
    } else {
      ClipStrips(summary, RESUME_OTHER_CHARS);
      LinesStrip(summary);
      if |t| > RESUME_OTHER_CHARS {
        ClipKeepsWatermarkIff(t, RESUME_OTHER_CHARS);
      } else {
        StripTight(t);
      }
    }
  }

  lemma {:induction false} ClipStrips(text: string, n: nat)
    ensures Clip(Strip(text), n) == Clip(text, n)
  {
    StripTight(Strip(text));
  }

  // A damaged summary

  function Fill(n: nat): string {
    if n == 0 then "" else Fill(n - 1) + "x"
  }

  lemma {:induction false} FillIsALine(n: nat)
    ensures |Fill(n)| == n && forall k :: 0 <= k < n ==> Fill(n)[k] == 'x'
  {
    if n > 0 {
      FillIsALine(n - 1);
    }
  }

  lemma {:induction false} FilledLine(s: string)
    requires s != "" && forall k :: 0 <= k < |s| ==> s[k] == 'x'
    ensures Lines(s) == [s] && Classify(s) == Prose
  {
    LinesOfLine(s);
    assert s[0] == 'x' && NOTICE[0] == '>';
  }

  lemma {:induction false} CutFill(s: string)
    requires s != "" && forall k :: 0 <= k < |s| ==> s[k] == 'x'
    ensures var c := s + " ...[생략]"; Lines(c) == [c] && !IsHeader(Classify(c)) && !Classify(c).Tier2Empty?
  {
    var c := s + " ...[생략]";
    assert OneLine(" ...[생략]");
    OneLineConcat(s, " ...[생략]");
    LinesOfLine(c);
    CutIsNoHeader(c);
  }

  lemma {:induction false} EmptySummaryRuns(through: nat) returns (ls: seq<string>, st: State)
    ensures Lines(Format("", through, [], [])) == [VERSION] + ls
    ensures Run(START, ls, Classify) == Some(st)
    ensures st.section.Tier2? && st.through == through && st.tier2 == [] && st.discoveries == []
  {
    var front, tail := FormatFront("", through, [], []);
    st := State(Tier2, Collected(""), through, [], []);
    ls := front + tail;
    assert tail == [TIER2_EMPTY] by {
      EmptyLists();
    }
    Tier2EmptyIsALine();
    RunPlaceholder(st, TIER2_EMPTY, Classify);
    RunConcat(START, front, tail, Classify);
  }

  lemma {:induction false} Regrouped(a: seq<string>, b: seq<string>, c: seq<string>)
    ensures (a + b) + c == a + (b + c)
  {}

  lemma {:induction false} LinesBehind(f: string, more: string, v: string, ls: seq<string>)
    requires Lines(f) == [v] + ls
    ensures Lines(f + NL + more) == [v] + (ls + Lines(more))
  {
    assert Seen("") == [];
    ViewNewline(f, more, Seen);
    Regrouped([v], ls, Lines(more));
  }

  /** Parsing an empty summary with more lines behind it. */
  lemma {:induction false} ParseBehind(f: string, more: string, through: nat) returns (st: State)
    requires f == Format("", through, [], [])
    ensures st.section.Tier2? && st.through == through && st.tier2 == [] && st.discoveries == []
    ensures Parse(f + NL + more) == Finish(Run(st, Lines(more), Classify))
  {
    var ls;
    ls, st := EmptySummaryRuns(through);
    LinesBehind(f, more, VERSION, ls);
    ParseBehindVersion(f + NL + more, ls + Lines(more));
    RunConcat(START, ls, Lines(more), Classify);
  }

  lemma {:induction false} EmptyLists()
    ensures Tier2Shown([]) + DiscoveriesShown([]) == [TIER2_EMPTY]
  {
    assert Tier2Printed([]) == [] && DiscoveriesPrinted([]) == [];
  }

  lemma {:induction false} FormatStarts(tier3: string, through: int, t2: seq<string>, d: seq<string>)
    ensures StartsWith(Format(tier3, through, t2, d), VERSION)
  {
    var ls := Sections(tier3, through, t2, d);
    assert Format(tier3, through, t2, d) == ls[0] + (NL + NL) + Join(ls[1..], NL + NL);
  }

  /** A printed summary, a long line, and a section header that makes the parser give up. */
  function Damaged(f: string): string {
    f + NL + (Fill(40) + NL + TIER3_HEADER)
  }

  function Cut(f: string): string {
    f + NL + (Fill(20) + " ...[생략]")
  }

  lemma {:induction false} FillSplit(n: nat, m: nat)
    requires n <= m
    ensures n <= |Fill(m)| && Fill(m)[..n] == Fill(n)
  {
    FillIsALine(n);
    FillIsALine(m);
  }

  lemma {:induction false} HeaderEnd()
    ensures TIER3_HEADER != "" && TIER3_HEADER[|TIER3_HEADER| - 1] == ')'
  {}

  lemma {:induction false} DamagedIsTight(f: string)
    requires f != "" && !IsSpace(f[0])
    ensures Tight(Damaged(f)) && |f| + 41 < |Damaged(f)|
  {
    var s := Damaged(f);
    FillIsALine(40);
    HeaderEnd();
    assert s[|s| - 1] == TIER3_HEADER[|TIER3_HEADER| - 1];
    assert s[0] == f[0];
  }

  lemma {:induction false} DamagedHead(f: string)
    ensures |f| + 21 <= |Damaged(f)| && Damaged(f)[..|f| + 21] == f + NL + Fill(20)
  {
    FillIsALine(40);
    FillIsALine(20);
    FillSplit(20, 40);
    var pad, rest := Fill(40), NL + TIER3_HEADER;
    assert Damaged(f) == f + NL + Fill(20) + (pad[20..] + rest);
  }

  /** Clipping a longer tight text. */
  lemma {:induction false} ClipLonger(t: string, n: nat, head: string)
    requires Tight(t) && 8 < n < |t| && head == t[..n - 8] && !IsSpace(t[n - 9])
    ensures Clip(t, n) == head + " ...[생략]"
  {
    StripTight(t);
    assert head[|head| - 1] == t[n - 9];
    assert RStrip(head) == head;
  }

  lemma {:induction false} HeadEnd(t: string, f: string, pad: string)
    requires |pad| == 20 && pad[19] == 'x' && |f| + 21 <= |t| && t[..|f| + 21] == f + NL + pad
    ensures t[|f| + 20] == 'x'
  {
    var head := f + NL + pad;
    assert t[|f| + 20] == t[..|f| + 21][|f| + 20];
    assert head[|f| + 20] == pad[19];
  }

  lemma {:induction false} CutIs(f: string, pad: string, omission: string)
    ensures (f + NL + pad) + omission == f + NL + (pad + omission)
  {}

  lemma {:induction false} ClipDamaged(f: string)
    requires f != "" && !IsSpace(f[0])
    ensures Strip(Damaged(f)) == Damaged(f) && Clip(Damaged(f), |f| + 29) == Cut(f)
  {
    DamagedIsTight(f);
    DamagedHead(f);
    FillIsALine(20);
    HeadEnd(Damaged(f), f, Fill(20));
    ClipLonger(Damaged(f), |f| + 29, f + NL + Fill(20));
    StripTight(Damaged(f));
    CutIs(f, Fill(20), " ...[생략]");
  }

  lemma {:induction false} RunTwo(st: State, a: string, b: string, kind: string -> Kind)
    requires st.section.Tier2? && kind(a) == Prose && kind(b).Tier3Header?
    ensures Run(st, [a] + [b], kind) == None
  {
    RunStep(st, a, [b], kind);
    RunOne(st.(tier2 := st.tier2 + [a]), b, kind);
  }

  lemma {:induction false} DamagedIsUnparsed(f: string, through: nat)
    requires f == Format("", through, [], [])
    ensures Parse(Damaged(f)) == EMPTY
  {
    var pad := Fill(40);
    var st := ParseBehind(f, pad + NL + TIER3_HEADER, through);
    FillIsALine(40);
    FilledLine(pad);
    Tier3HeaderIsALine();
    assert Seen("") == [];
    ViewNewline(pad, TIER3_HEADER, Seen);
    KindsOfReserved();
    RunTwo(st, pad, TIER3_HEADER, Classify);
  }

  lemma {:induction false} RunLine(st: State, l: string, kind: string -> Kind)
    requires st.section.Tier2? && !IsHeader(kind(l)) && !kind(l).Tier2Empty?
    ensures Finish(Run(st, [l], kind)).through == st.through
  {
    RunOne(st, l, kind);
  }

  lemma {:induction false} CutIsParsed(f: string, through: nat)
    requires f == Format("", through, [], [])
    ensures Parse(Cut(f)).through == through
  {
    var more := Fill(20) + " ...[생략]";
    var st := ParseBehind(f, more, through);
    FillIsALine(20);
    CutFill(Fill(20));
    RunLine(st, more, Classify);
  }

  /** A summary damaged behind the cut regains, once clipped, a watermark it had lost. */
  lemma {:induction false} DamagedRegainsWatermark(through: nat, tier2: nat, discoveries: nat)
    requires through > 0
    ensures var f := Format("", through, [], []);
            Parse(Damaged(f)).through == 0
            && Parse(Compacted(Damaged(f), tier2, |f| + 29, discoveries)).through == through
  {
    var f := Format("", through, [], []);
    FormatStarts("", through, [], []);
    assert f[0] == VERSION[0];
    ClipDamaged(f);
    DamagedIsUnparsed(f, through);
    CutIsParsed(f, through);
    assert !Tiered(Damaged(f)) by {
      NotThePrintedEmpty(f);
    }
  }

  lemma {:induction false} LastLine(a: seq<string>, l: string)
    ensures (a + [l])[|a + [l]| - 1] == l
  {}

  lemma {:induction false} DamagedEnd(f: string) returns (a: seq<string>)
    ensures Lines(Damaged(f)) == a + [TIER3_HEADER]
  {
    var pad := Fill(40);
    FillIsALine(40);
    FilledLine(pad);
    Tier3HeaderIsALine();
    assert Seen("") == [];
    ViewNewline(pad, TIER3_HEADER, Seen);
    ViewNewline(f, pad + NL + TIER3_HEADER, Seen);
    a := Lines(f) + [pad];
    Regrouped(Lines(f), [pad], [TIER3_HEADER]);
  }

  lemma {:induction false} NotThePrintedEmpty(f: string)
    ensures Damaged(f) != Format("", 0, [], [])
  {
    var front, tail := FormatFront("", 0, [], []);
    EmptyLists();
    Regrouped([VERSION], front, tail);
    LastLine([VERSION] + front, TIER2_EMPTY);
    var a := DamagedEnd(f);
    LastLine(a, TIER3_HEADER);
    assert TIER2_EMPTY[0] != TIER3_HEADER[0];
  }
}
