/** Printing a parsed summary and parsing it again changes nothing. */
module SummaryIdempotence {
  import opened Text
  import opened TieredSummary
  import opened SummaryRoundTrip
  import opened SummaryWatermark
  import opened SummaryRewrites

  lemma {:induction false} SplitFirst(a: string, b: string)
    requires OneLine(a)
    ensures SplitLines(a + NL + b) == [a] + SplitLines(b)
  {
    var s := a + NL + b;
    BreakFromNone(a, 0);
    LineEndConcat(a, NL + b);
    assert s == a + (NL + b);
    assert s[..|a|] == a && s[|a| + 1..] == b;
  }

  /** Non-empty lines survive joining and splitting. */
  lemma {:induction false} SplitJoin(ls: seq<string>)
    requires Settled(ls)
    ensures SplitLines(Join(ls, NL)) == ls
  {
    if |ls| == 1 {
      BreakFromNone(ls[0], 0);
    } else if |ls| > 1 {
      SplitJoin(ls[1..]);
      SplitFirst(ls[0], Join(ls[1..], NL));
    }
  }

  lemma {:induction false} GuardProse(l: string)
    requires Tight(l) && Classify(l) == Prose
    ensures Guard(l) == l
  {
    StripTight(l);
  }

  lemma {:induction false} GuardedProse(ls: seq<string>)
    requires Settled(ls) && AllProse(ls, Classify)
    ensures Guarded(ls) == ls
  {
    if ls != [] {
      GuardProse(ls[0]);
      GuardedProse(ls[1..]);
    }
  }

  lemma {:induction false} JoinEnds(ls: seq<string>)
    requires Settled(ls) && ls != []
    ensures Join(ls, NL) != "" && Tight(Join(ls, NL))
  {
    if |ls| > 1 {
      JoinEnds(ls[1..]);
      var j := Join(ls, NL);
      assert j[|j| - 1] == Join(ls[1..], NL)[|Join(ls[1..], NL)| - 1];
    }
  }

  lemma {:induction false} JoinBehind(l: string, ls: seq<string>)
    ensures |Join([l] + ls, NL)| <= |l| + 1 + |Join(ls, NL)|
  {
    assert ([l] + ls)[1..] == ls;
  }

  /** The non-blank lines of a text, joined again, are no longer than the text. */
  lemma {:induction false} LinesShorter(s: string)
    ensures |Join(Lines(s), NL)| <= |s|
    decreases |s|
  {
    var e := LineEnd(s);
    if e < |s| {
      var rest := s[NextLine(s, e)..];
      LinesShorter(rest);
      ViewCut(s, e, rest, Seen);
      if Strip(s[..e]) != "" {
        JoinBehind(Strip(s[..e]), Lines(rest));
      } else {
        assert [] + Lines(rest) == Lines(rest);
      }
    }
  }

  lemma {:induction false} MarkedShorter(whole: string, mark: string, rest: string)
    ensures |Marked(whole, mark, rest)| <= |mark| + |whole| || Marked(whole, mark, rest) == rest
  {}

  lemma {:induction false} NewestShorter(t: string, n: nat)
    requires n > |CUT_MARK|
    ensures |Newest(t, n)| <= n
  {
    if |t| > n {
      var k, m := NewestOfLonger(t, n);
      MarkedShorter(t[WholeFrom(t, k)..], CUT_MARK, t[|t| - n..]);
    }
  }

  lemma {:induction false} CollectedFits(tier3: string) returns (ls: seq<string>)
    ensures ls == Collected(tier3) && Settled(ls) && AllProse(ls, Classify) && |Join(ls, NL)| <= TIER3_CHARS
  {
    var t := GuardedText(tier3);
    var m := PrintedCases(tier3, t);
    NewestShorter(t, TIER3_CHARS);
    RunBody(tier3, 0);
    ls := Collected(tier3);
    LinesSettled(Tier3Text(tier3));
    LinesShorter(Tier3Text(tier3));
    if m == "" {
      Tier3EmptyIsALine();
      assert ls == [];
    }
  }

  lemma {:induction false} ShortIsItself(t: string, n: nat)
    requires |t| <= n && Tight(t)
    ensures TailClip(t, n) == t
  {
    StripTight(t);
  }

  lemma {:induction false} PrintedAgain(ls: seq<string>, j: string)
    requires Settled(ls) && AllProse(ls, Classify) && ls != [] && j == Join(ls, NL) && |j| <= TIER3_CHARS
    ensures Tier3Text(j) == j && j != "" && Tight(j)
  {
    JoinEnds(ls);
    SplitJoin(ls);
    GuardedProse(ls);
    ShortIsItself(j, TIER3_CHARS);
  }

  lemma {:induction false} NothingPrinted()
    ensures Tier3Text("") == TIER3_EMPTY
  {
    assert SplitLines("") == [] && Guarded([]) == [];
    ShortIsItself("", TIER3_CHARS);
  }

  /** Collecting, joining and printing the procedure once more yields the same lines. */
  lemma {:induction false} CollectedAgain(tier3: string)
    ensures Collected(Strip(Join(Collected(tier3), NL))) == Collected(tier3)
  {
    var ls := CollectedFits(tier3);
    var j := Join(ls, NL);
    if ls == [] {
      StripTight("");
      NothingPrinted();
      Tier3EmptyIsALine();
    } else {
      PrintedAgain(ls, j);
      StripTight(j);
      LinesJoin(ls);
      Tier3EmptyIsALine();
      assert ls[0] != TIER3_EMPTY;
    }
  }

  lemma {:induction false} ClipAgain(l: string, n: nat)
    requires Tight(l) && |l| <= n
    ensures Clip(l, n) == l
  {
    StripTight(l);
  }

  ghost predicate Short(ls: seq<string>, n: nat) {
    forall k {:trigger ls[k]} :: 0 <= k < |ls| ==> |ls[k]| <= n
  }

  lemma {:induction false} ClipLinesShort(ls: seq<string>, n: nat)
    ensures Short(ClipLines(ls, n), n)
  {
    if ls != [] {
      ClipLinesShort(ls[1..], n);
    }
  }

  lemma {:induction false} ClipLinesAgain(ls: seq<string>, n: nat)
    requires Settled(ls) && Short(ls, n)
    ensures ClipLines(ls, n) == ls
  {
    if ls != [] {
      ClipAgain(ls[0], n);
      StripTight(ls[0]);
      ClipLinesAgain(ls[1..], n);
    }
  }

  /** Settled lines are printed as they are exactly if they fit, in number and length. */
  lemma {:induction false} PrintedAsIs(ls: seq<string>, n: nat, count: nat)
    requires Settled(ls)
    ensures Take(ClipLines(ls, n), count) == ls <==> |ls| <= count && Short(ls, n)
  {
    ClipLinesShort(ls, n);
    if |ls| <= count && Short(ls, n) {
      ClipLinesAgain(ls, n);
    }
  }

  /** The procedure parsed from a printed summary is collected as before. */
  lemma {:induction false} ProcedureAgain(tier3: string, through: int, t2: seq<string>, d: seq<string>)
    ensures var p := Parse(Format(tier3, through, t2, d));
            Strip(Join(Collected(p.tier3), NL)) == p.tier3
  {
    var st, tail := State(Tier2, Collected(tier3), Positive(through), [], []), Tier2Shown(t2) + DiscoveriesShown(d);
    ParseFormat(tier3, through, t2, d);
    RunTail(st, tail);
    CollectedAgain(tier3);
    NothingCollected();
  }

  lemma {:induction false} NothingCollected()
    ensures Strip(Join(Collected(""), NL)) == ""
  {
    NothingPrinted();
    Tier3EmptyIsALine();
    StripTight("");
  }

  /** The lines the parser read fit the printer's limits. */
  ghost predicate Fits(p: Parsed) {
    && |p.tier2| <= TIER2_LINES && Short(p.tier2, TIER2_CHARS)
    && |p.discoveries| <= DISCOVERY_LINES && Short(p.discoveries, DISCOVERY_CHARS)
  }

  /** What the parser reads from any printed summary is read back unchanged when printed
      again, exactly if the lines it read fit the limits: a printed entry that spreads over
      several lines may be read as more lines than are printed. */
  lemma {:induction false} FormatParseIdempotentIff(tier3: string, through: int, t2: seq<string>, d: seq<string>)
    ensures var p := Parse(Format(tier3, through, t2, d));
            Parse(Format(p.tier3, p.through, p.tier2, p.discoveries)) == p <==> Fits(p)
  {
    var p := ParsedIsPlain(Format(tier3, through, t2, d));
    PlainToPlainLines(p.tier2, true);
    PlainToPlainLines(p.discoveries, false);
    ParseRecovers(p.tier3, p.through, p.tier2, p.discoveries);
    ProcedureAgain(tier3, through, t2, d);
    PrintedAsIs(p.tier2, TIER2_CHARS, TIER2_LINES);
    PrintedAsIs(p.discoveries, DISCOVERY_CHARS, DISCOVERY_LINES);
  }

  lemma {:induction false} ClipOne(l: string, n: nat)
    requires l != "" && Tight(l) && |l| <= n
    ensures ClipLines([l], n) == [l] && ClipLines([], n) == []
  {
    StripTight(l);
    ClipAgain(l, n);
    assert [l][1..] == [];
  }

  lemma {:induction false} OneEntryShown(entry: string)
    requires entry != "" && Tight(entry) && |entry| <= TIER2_CHARS
    ensures Tier2Shown([entry]) + DiscoveriesShown([]) == Lines(entry)
  {
    ClipOne(entry, TIER2_CHARS);
    ClipOne("x", DISCOVERY_CHARS);
    assert [entry][1..] == [];
    assert ViewAll([], Lines) == [];
  }

  /** A single entry of several lines is read as those lines. */
  lemma {:induction false} EntryIsSpread(tier3: string, through: int, ls: seq<string>)
    requires PlainTo(ls, Classify, true) && ls != [] && |Join(ls, NL)| <= TIER2_CHARS
    ensures Parse(Format(tier3, through, [Join(ls, NL)], [])).tier2 == ls
  {
    JoinEnds(ls);
    OneEntryShown(Join(ls, NL));
    LinesJoin(ls);
    ParseFormat(tier3, through, [Join(ls, NL)], []);
    RunTier2(State(Tier2, Collected(tier3), Positive(through), [], []), ls, Classify);
    assert [] + ls == ls;
  }

  function Crosses(n: nat): (ls: seq<string>)
    ensures |ls| == n && forall k :: 0 <= k < n ==> ls[k] == "x"
  {
    seq(n, _ => "x")
  }

  lemma {:induction false} CrossesAreShort(n: nat)
    requires n > 0
    ensures |Join(Crosses(n), NL)| == 2 * n - 1
  {
    assert Crosses(n)[1..] == Crosses(n - 1);
    if n > 1 {
      CrossesAreShort(n - 1);
    }
  }

  lemma {:induction false} CrossesArePlain(n: nat)
    ensures PlainTo(Crosses(n), Classify, true)
  {
    FilledLine("x");
  }

  /** The exception is real: an entry of 21 lines is read as 21 lines, of which 20 are
      printed again. */
  lemma {:induction false} SpreadEntryIsCut(tier3: string, through: int) returns (entry: string)
    ensures var p := Parse(Format(tier3, through, [entry], []));
            |p.tier2| == TIER2_LINES + 1 && Parse(Format(p.tier3, p.through, p.tier2, p.discoveries)) != p
  {
    var ls := Crosses(TIER2_LINES + 1);
    entry := Join(ls, NL);
    CrossesArePlain(TIER2_LINES + 1);
    CrossesAreShort(TIER2_LINES + 1);
    EntryIsSpread(tier3, through, ls);
    FormatParseIdempotentIff(tier3, through, [entry], []);
  }

  /** A Tier 2 line that is a section header costs the summary its watermark. */
  lemma {:induction false} HeaderLineLosesWatermark(tier3: string, through: nat)
    requires through > 0
    ensures Parse(Format(tier3, through, [TIER3_HEADER], [])).through != through
  {
    Tier3HeaderIsALine();
    KindsOfReserved();
    OneEntryShown(TIER3_HEADER);
    assert [TIER3_HEADER][1..] == [];
    assert CountKind([TIER3_HEADER], false) == 1;
    WatermarkIff(tier3, through, [TIER3_HEADER], []);
  }

  lemma {:induction false} PrintedFits(ls: seq<string>, n: nat, count: nat)
    ensures |Take(ClipLines(ls, n), count)| <= count && Short(Take(ClipLines(ls, n), count), n)
  {
    ClipLinesShort(ls, n);
  }

  /** And so it is for all single-line lists without headers. */
  lemma {:induction false} FormatParseIdempotent(tier3: string, through: int, t2: seq<string>, d: seq<string>)
    requires PlainLines(t2, true) && PlainLines(d, false)
    ensures var p := Parse(Format(tier3, through, t2, d));
            Parse(Format(p.tier3, p.through, p.tier2, p.discoveries)) == p
  {
    ParseRecovers(tier3, through, t2, d);
    PrintedFits(t2, TIER2_CHARS, TIER2_LINES);
    PrintedFits(d, DISCOVERY_CHARS, DISCOVERY_LINES);
    FormatParseIdempotentIff(tier3, through, t2, d);
  }

  /** A procedure that fits is printed line by line: reserved lines marked, nothing else
      changed, nothing lost. */
  lemma {:induction false} ProcedureKept(tier3: string)
    requires |Strip(Join(Guarded(SplitLines(tier3)), NL))| <= TIER3_CHARS
    ensures Collected(tier3) == ViewAll(Guarded(SplitLines(tier3)), Seen)
  {
    var g := Guarded(SplitLines(tier3));
    var t := GuardedText(tier3);
    var m := PrintedCases(tier3, t);
    GuardedLines(tier3, g, t);
    Tier3EmptyIsALine();
    if m == "" {
      ViewOneLine("", Seen);
    } else if Lines(t) != [] {
      assert Classify(Lines(t)[0]) == Prose;
    }
  }

  lemma {:induction false} GuardedLines(tier3: string, g: seq<string>, t: string)
    requires g == Guarded(SplitLines(tier3)) && t == Strip(Join(g, NL))
    ensures Lines(t) == ViewAll(g, Seen)
  {
    SplitLinesOneLine(tier3);
    GuardedIsProse(SplitLines(tier3));
    assert Seen("") == [];
    ViewJoin(g, Seen);
    LinesStrip(Join(g, NL));
  }
}
