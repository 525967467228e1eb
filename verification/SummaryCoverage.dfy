/** Summaries whose text says of its coverage what the parser reads, and the rewritings that
    leave them so. */
module SummaryCoverage {
  import opened Text
  import opened TieredSummary
  import opened SummaryRoundTrip
  import opened SummaryWatermark
  import opened SummaryCuts
  import opened SummaryRewrites

  /** The watermark of a summary: what the next rollover reads. */
  function Mark(summary: string): nat { Parse(summary).through }

  /** Nothing the text starts with reads as a summary with a watermark. */
  ghost predicate ReadsNothing(ls: seq<string>) {
    forall a, n: nat {:trigger Reads(a, n)} :: a <= ls ==> !Reads(a, n)
  }

  /** Whatever the text starts with reads as the text itself, if it reads at all: no cut
      and no repair can bring up another watermark. */
  ghost predicate Honest(text: string) {
    && (text == "" || !IsSpace(text[0]))
    && forall a, n: nat {:trigger Reads(a, n)} :: a <= Lines(text) && Reads(a, n) ==> Mark(text) == n
  }

  lemma {:induction false} ReadsStarts(a: seq<string>, n: nat)
    requires Reads(a, n)
    ensures |a| > 4 && a[0] == VERSION && Classify(a[3]) == Range(Some(n)) && n > 0
  {
    var b: nat :| ReadsAt(a, b, n);
  }

  lemma {:induction false} NothingRead(text: string)
    requires ReadsNothing(Lines(text))
    ensures Mark(text) == 0
  {
    WatermarkReads(text);
    assert Lines(text) <= Lines(text);
  }

  lemma {:induction false} NothingIsHonest(text: string)
    requires (text == "" || !IsSpace(text[0])) && ReadsNothing(Lines(text))
    ensures Honest(text) && Mark(text) == 0
  {
    NothingRead(text);
  }

  lemma {:induction false} HonestWithoutMark(text: string)
    requires Honest(text) && Mark(text) == 0
    ensures ReadsNothing(Lines(text))
  {
    forall a, n: nat | a <= Lines(text)
      ensures !Reads(a, n)
    {
      if Reads(a, n) {
        ReadsStarts(a, n);
      }
    }
  }

  lemma {:induction false} OtherReadsNothing(ls: seq<string>)
    requires ls == [] || ls[0] != VERSION
    ensures ReadsNothing(ls)
  {
    forall a, n: nat | a <= ls
      ensures !Reads(a, n)
    {
      if Reads(a, n) {
        ReadsStarts(a, n);
      }
    }
  }

  lemma {:induction false} EmptyIsHonest()
    ensures Honest("") && Mark("") == 0
  {
    ViewOneLine("", Seen);
    OtherReadsNothing(Lines(""));
    NothingIsHonest("");
  }

  // Printing

  lemma {:induction false} FourthLine(v: string, a: string, b: string, c: string, x: seq<string>, y: seq<string>)
    ensures |[v] + (([a, b, c] + x) + y)| > 3 && ([v] + (([a, b, c] + x) + y))[3] == c
  {}

  lemma {:induction false} CoverageLine(tier3: string, through: int, t2: seq<string>, d: seq<string>)
    returns (ls: seq<string>)
    ensures ls == Lines(Format(tier3, through, t2, d)) && |ls| > 3 && ls[3] == Coverage(through)
  {
    ls := Lines(Format(tier3, through, t2, d));
    FormatLines(tier3, through, t2, d);
    FourthLine(VERSION, TIER3_HEADER, NOTICE, Coverage(through), Lines(Tier3Text(tier3)),
               ([TIER2_HEADER] + Tier2Shown(t2)) + DiscoveriesShown(d));
  }

  lemma {:induction false} ReadsCoverage(a: seq<string>, ls: seq<string>, n: nat)
    requires a <= ls && Reads(a, n)
    ensures |ls| > 3 && n > 0 && Classify(ls[3]) == Range(Some(n))
  {
    ReadsStarts(a, n);
  }

  /** A printed summary whose watermark is read back is honest. */
  lemma {:induction false} PrintedIsHonest(tier3: string, through: int, t2: seq<string>, d: seq<string>)
    requires Mark(Format(tier3, through, t2, d)) == Positive(through)
    ensures Honest(Format(tier3, through, t2, d))
  {
    var f := Format(tier3, through, t2, d);
    FormatStarts(tier3, through, t2, d);
    assert f[0] == VERSION[0];
    var ls := CoverageLine(tier3, through, t2, d);
    CoverageReadsBack(through);
    forall a, n: nat | a <= ls && Reads(a, n)
      ensures n == through
    {
      ReadsCoverage(a, ls, n);
    }
  }

  /** The watermark of a printed summary: the one printed, or none when a Tier 2 or discovery
      line is a header out of order. */
  lemma {:induction false} PrintedMark(tier3: string, through: int, t2: seq<string>, d: seq<string>)
    ensures Mark(Format(tier3, through, t2, d))
            == if Orderly(Tier2Shown(t2) + DiscoveriesShown(d), 1) then Positive(through) else 0
  {
    ParseFormat(tier3, through, t2, d);
    RunTail(State(Tier2, Collected(tier3), Positive(through), [], []), Tier2Shown(t2) + DiscoveriesShown(d));
  }

  // Cutting

  lemma {:induction false} ClipStarts(t: string, n: nat)
    requires Tight(t)
    ensures Clip(t, n) == "" || !IsSpace(Clip(t, n)[0])
  {
    StripTight(t);
    if 8 < n < |t| {
      ClipIs(t, n);
      RStripFirst(t[..n - 8]);
    }
  }

  lemma {:induction false} ShortReadsNothing(s: string)
    requires |s| <= 8 && (s == "" || !IsSpace(s[0]))
    ensures ReadsNothing(Lines(s))
  {
    VersionEnds();
    if s == "" {
      ViewOneLine("", Seen);
    } else {
      FirstLineStarts(s);
    }
    OtherReadsNothing(Lines(s));
  }

  lemma {:induction false} WithoutVersion(t: string)
    requires (t == "" || !IsSpace(t[0])) && !StartsWith(t, VERSION)
    ensures ReadsNothing(Lines(t))
  {
    if t == "" {
      ViewOneLine("", Seen);
    } else {
      FirstLineStarts(t);
    }
    OtherReadsNothing(Lines(t));
  }

  lemma {:induction false} PrefixOfMore(a: seq<string>, ls: seq<string>, last: string)
    requires a <= ls + [last]
    ensures a <= ls || a == ls + [last]
  {
    if |a| <= |ls| {
      assert (ls + [last])[..|a|] == ls[..|a|];
    }
  }

  /** A clip of a text brings up nothing the text did not start with. */
  lemma {:induction false} ClipReadsNothing(t: string, n: nat)
    requires Tight(t) && ReadsNothing(Lines(t))
    ensures ReadsNothing(Lines(Clip(t, n)))
  {
    StripTight(t);
    if 8 < n < |t| {
      var last := ClippedLines(t, n);
      var whole := WholeLines(t, n - 8);
      WholeLinesArePrefix(t, n - 8);
      forall a, k: nat | a <= whole + [last]
        ensures !Reads(a, k)
      {
        PrefixOfMore(a, whole, last);
        ReadsMore(whole, last, k);
        assert a <= whole ==> a <= Lines(t);
      }
    } else if n < |t| {
      ShortReadsNothing(Clip(t, n));
    }
  }

  // Rewriting

  /** A flush keeps an honest summary honest, with its watermark. */
  lemma {:induction false} FlushIsHonest(previous: string, f: Flush)
    ensures Honest(Flushed(previous, f)) && Mark(Flushed(previous, f)) == Mark(previous)
  {
    var p := Parse(previous);
    FlushKeepsWatermark(previous, f);
    PrintedIsHonest(Carried(p.tier3, f), p.through, [], p.discoveries);
  }

  lemma {:induction false} TieredIsHonest(summary: string, tier2: nat, chars: nat, discoveries: nat)
    requires Tiered(Strip(summary))
    ensures var c := Compacted(summary, tier2, chars, discoveries); Honest(c) && Mark(c) == Mark(summary)
  {
    var p := Parse(Strip(summary));
    var tier3 := if |p.tier3| <= chars then p.tier3 else p.tier3[|p.tier3| - chars..];
    ParseIgnoresSpace(summary);
    CompactionKeepsTiered(summary, tier2, chars, discoveries);
    PrintedIsHonest(tier3, p.through, Last(p.tier2, tier2), Last(p.discoveries, discoveries));
  }

  /** The lines of an honest summary that is not tiered. */
  lemma {:induction false} OthersReadNothing(summary: string)
    requires Honest(summary) && !Tiered(Strip(summary))
    ensures ReadsNothing(Lines(Strip(summary))) && Mark(summary) == 0
  {
    ParseIgnoresSpace(summary);
    LinesStrip(summary);
    if StartsWith(Strip(summary), VERSION) {
      assert !HoldsSomething(Parse(Strip(summary)));
      HonestWithoutMark(summary);
    } else {
      WithoutVersion(Strip(summary));
      NothingRead(summary);
    }
  }

  /** What is left of such a text by a clip. */
  lemma {:induction false} ClipIsHonest(t: string, n: nat)
    requires Tight(t) && ReadsNothing(Lines(t))
    ensures Honest(Clip(t, n)) && Mark(Clip(t, n)) == 0
  {
    ClipReadsNothing(t, n);
    ClipStarts(t, n);
    NothingIsHonest(Clip(t, n));
  }

  /** So does a compaction, to whatever size. */
  lemma {:induction false} CompactionIsHonest(summary: string, tier2: nat, chars: nat, discoveries: nat)
    requires Honest(summary)
    ensures var c := Compacted(summary, tier2, chars, discoveries); Honest(c) && Mark(c) == Mark(summary)
  {
    if Tiered(Strip(summary)) {
      TieredIsHonest(summary, tier2, chars, discoveries);
    } else {
      OthersReadNothing(summary);
      ClipIsHonest(Strip(summary), chars);
    }
  }

  lemma {:induction false} StripStarts(s: string, p: string)
    requires s == "" || !IsSpace(s[0])
    ensures StartsWith(Strip(s), p) ==> StartsWith(s, p)
  {
    if s == "" {
      StripTight("");
    } else {
      StripIsPrefix(s);
      assert StartsWith(Strip(s), p) ==> s[..|p|] == s[..|Strip(s)|][..|p|];
    }
  }

  /** So does the shortening for a resumed run. */
  lemma {:induction false} ResumeIsHonest(summary: string)
    requires Honest(summary)
    ensures Honest(ResumeSummary(summary)) && Mark(ResumeSummary(summary)) == Mark(summary)
  {
    var t := Strip(summary);
    LinesStrip(summary);
    if t == "" {
      BlankIsUnparsed(summary);
      EmptyIsHonest();
    } else if StartsWith(summary, VERSION) {
      CompactionIsHonest(summary, RESUME_TIER2_LINES, 0, RESUME_DISCOVERIES);
    } else {
      StripStarts(summary, VERSION);
      WithoutVersion(t);
      NothingRead(summary);
      ClipStrips(summary, RESUME_OTHER_CHARS);
      ClipIsHonest(t, RESUME_OTHER_CHARS);
    }
  }
}
