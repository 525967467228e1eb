/** What merging a rule into a playbook does to its rules and its layout. */
module PlaybookRules {
  import opened Text
  import opened Playbook

  // Neat text

  /** Single spaces between words, and nothing else that is white. */
  ghost predicate Neat(s: string) {
    && Tight(s)
    && forall i :: 0 <= i < |s| && IsSpace(s[i]) ==> s[i] == ' ' && i + 1 < |s| && !IsSpace(s[i + 1])
  }

  ghost predicate NeatInside(r: string) {
    && (r != "" ==> !IsSpace(r[|r| - 1]))
    && forall i :: 0 <= i < |r| && IsSpace(r[i]) ==> r[i] == ' ' && i + 1 < |r| && !IsSpace(r[i + 1])
  }

  lemma {:induction false} WordNeat(c: char, gap: bool, r: string)
    requires !IsSpace(c) && NeatInside(r)
    ensures NeatInside((if gap then [' ', c] else [c]) + r)
  {
    var w := if gap then [' ', c] else [c];
    var t := w + r;
    forall i | 0 <= i < |t| && IsSpace(t[i])
      ensures t[i] == ' ' && i + 1 < |t| && !IsSpace(t[i + 1])
    {
      if i >= |w| {
        assert t[i] == r[i - |w|] && t[i..] == r[i - |w|..];
      }
    }
  }

  /** Collapsing leaves single spaces. */
  lemma {:induction false} CollapsedNeat(s: string, i: nat, gap: bool)
    requires i <= |s|
    ensures NeatInside(Collapsed(s, i, gap))
    decreases |s| - i
  {
    if i < |s| {
      if IsSpace(s[i]) {
        CollapsedNeat(s, i + 1, true);
      } else {
        CollapsedNeat(s, i + 1, false);
        WordNeat(s[i], gap, Collapsed(s, i + 1, false));
      }
    }
  }

  lemma {:induction false} CollapsedStart(s: string, i: nat, gap: bool)
    requires i <= |s|
    ensures Collapsed(s, i, gap) != "" && gap ==> Collapsed(s, i, gap)[0] == ' '
    ensures i < |s| && !gap && !IsSpace(s[i]) ==> Collapsed(s, i, gap) != "" && Collapsed(s, i, gap)[0] == s[i]
    decreases |s| - i
  {
    if i < |s| && IsSpace(s[i]) {
      CollapsedStart(s, i + 1, true);
    }
  }

  lemma {:induction false} CollapseNeat(s: string)
    ensures Neat(Collapse(s))
  {
    var t := Strip(s);
    CollapsedNeat(t, 0, false);
    CollapsedStart(t, 0, false);
  }

  /** A neat text collapses to itself. */
  lemma {:induction false} CollapsedSelf(s: string, i: nat)
    requires i <= |s| && NeatInside(s) && (i == |s| || !IsSpace(s[i]))
    ensures Collapsed(s, i, false) == s[i..]
    decreases |s| - i
  {
    if i < |s| {
      if i + 1 < |s| && IsSpace(s[i + 1]) {
        CollapsedSelf(s, i + 2);
        assert Collapsed(s, i + 1, false) == Collapsed(s, i + 2, true);
        CollapsedGap(s, i + 2);
        assert s[i..] == [s[i]] + ([' '] + s[i + 2..]);
      } else {
        CollapsedSelf(s, i + 1);
        assert s[i..] == [s[i]] + s[i + 1..];
      }
    }
  }

  lemma {:induction false} CollapsedGap(s: string, i: nat)
    requires i < |s| && !IsSpace(s[i])
    ensures Collapsed(s, i, true) == [' '] + Collapsed(s, i, false)
  {}

  lemma {:induction false} CollapseSelf(s: string)
    requires Neat(s)
    ensures Collapse(s) == s
  {
    StripTight(s);
    CollapsedSelf(s, 0);
    assert s[0..] == s;
  }

  lemma {:induction false} KeyNeat(value: string)
    ensures Neat(Key(value))
  {
    CollapseNeat(Unbulleted(Strip(value)));
  }

  lemma {:induction false} BulletIsTight(k: string)
    requires Neat(k) && k != ""
    ensures Strip("- " + k) == "- " + k && RStrip("- " + k) == "- " + k && ("- " + k)[0] == '-'
  {
    var b := "- " + k;
    assert b[0] == '-' && b[|b| - 1] == k[|k| - 1];
    StripTight(b);
  }

  lemma {:induction false} BulletIsALine(k: string)
    requires Neat(k)
    ensures OneLine("- " + k)
  {
    var b := "- " + k;
    forall i | 0 <= i < |b|
      ensures !IsBreak(b[i])
    {
      if i >= 2 {
        assert b[i] == k[i - 2];
      }
    }
  }

  lemma {:induction false} LStripLeading(c: char, s: string)
    requires IsSpace(c) && s != "" && !IsSpace(s[0])
    ensures LStrip([c] + s) == s
  {
    assert ([c] + s)[1..] == s;
  }

  lemma {:induction false} BulletUnbulleted(k: string)
    requires k != "" && !IsSpace(k[0])
    ensures Unbulleted("- " + k) == k
  {
    var b := "- " + k;
    assert b[0] == '-' && b[1] == ' ' && b[1..] == [' '] + k;
    LStripLeading(' ', k);
  }

  /** The key of a rule's own bullet is that rule. */
  lemma {:induction false} KeyOfBullet(k: string)
    requires Neat(k) && k != ""
    ensures Key("- " + k) == k && Strip("- " + k) == "- " + k && RStrip("- " + k) == "- " + k
    ensures OneLine("- " + k)
  {
    BulletIsTight(k);
    BulletIsALine(k);
    BulletUnbulleted(k);
    CollapseSelf(k);
  }

  // Kept lines

  /** A line the merge keeps and never takes for a header. */
  ghost predicate Clean(ls: seq<string>, opens: string -> Option<Section>) {
    forall i {:trigger ls[i]} :: 0 <= i < |ls| ==>
      OneLine(ls[i]) && RStrip(ls[i]) == ls[i] && Strip(ls[i]) != "" && opens(Strip(ls[i])).None?
  }

  ghost predicate CleanSheet(t: Sheet, opens: string -> Option<Section>) {
    Clean(t.preamble, opens) && Clean(t.environment, opens) && Clean(t.deadEnds, opens) && Clean(t.strategies, opens)
  }

  ghost predicate KeptShape(ls: seq<string>) {
    forall i {:trigger ls[i]} :: 0 <= i < |ls| ==> OneLine(ls[i]) && RStrip(ls[i]) == ls[i] && Strip(ls[i]) != ""
  }

  lemma {:induction false} KeptOne(l: string)
    requires OneLine(l)
    ensures KeptShape(Kept(l))
  {
    StripRStrip(l);
    RStripStable(RStrip(l));
    RStripOneLine(l);
  }

  lemma {:induction false} KeptAll(lines: seq<string>)
    requires forall i {:trigger lines[i]} :: 0 <= i < |lines| ==> OneLine(lines[i])
    ensures KeptShape(ViewAll(lines, Kept))
  {
    if lines != [] {
      KeptOne(lines[0]);
      KeptAll(lines[1..]);
    }
  }

  lemma {:induction false} KeptLinesShape(text: string)
    ensures KeptShape(KeptLines(text))
  {
    SplitLinesOneLine(text);
    ViewSplit(text, Kept);
    KeptAll(SplitLines(text));
  }

  lemma {:induction false} SortClean(t: Sheet, ls: seq<string>, opens: string -> Option<Section>)
    requires CleanSheet(t, opens) && KeptShape(ls)
    ensures CleanSheet(Sort(t, ls, opens), opens)
    decreases |ls|
  {
    if ls != [] {
      SortClean(Put(t, ls[0], opens), ls[1..], opens);
    }
  }

  // Reading a layout back

  function Titled(header: string, ls: seq<string>): seq<string> {
    if ls == [] then [] else [header] + ls
  }

  /** The lines of a sheet, headers included, as a layout prints them. */
  function Listing(t: Sheet): seq<string> {
    t.preamble + (Titled(ENVIRONMENT, t.environment) + (Titled(DEAD_END, t.deadEnds) + Titled(STRATEGY, t.strategies)))
  }

  lemma {:induction false} EachConcat(a: seq<string>, b: seq<string>, view: string -> seq<string>)
    ensures Each(a + b, view) == Each(a, view) + Each(b, view)
  {
    if a == [] {
      assert a + b == b;
    } else {
      assert (a + b)[1..] == a[1..] + b;
      EachConcat(a[1..], b, view);
    }
  }

  lemma {:induction false} KeptOfShape(ls: seq<string>)
    requires KeptShape(ls)
    ensures ViewAll(ls, Kept) == ls
  {
    if ls != [] {
      KeptOfShape(ls[1..]);
    }
  }

  lemma {:induction false} KeptOfJoin(ls: seq<string>)
    requires KeptShape(ls)
    ensures View(Join(ls, NL), Kept) == ls
  {
    ViewJoin(ls, Kept);
    KeptOfShape(ls);
  }

  lemma {:induction false} PartKept(header: string, ls: seq<string>)
    requires View(header, Kept) == [header] && KeptShape(ls)
    ensures Each(Part(header, ls), Kept) == Titled(header, ls)
  {
    if ls != [] {
      var p := header + NL + Join(ls, NL);
      ViewNewline(header, Join(ls, NL), Kept);
      KeptOfJoin(ls);
      assert [p][1..] == [];
      assert Each([p], Kept) == View(p, Kept);
    }
  }

  /** A section header is read back as itself and holds no rule. */
  ghost predicate HeaderReadsBack(s: Section) {
    var h := HeaderOf(s);
    View(h, Kept) == [h] && Opens(Strip(h)) == Some(s) && Key(h) == ""
  }

  lemma {:induction false} HeaderLine(h: string)
    requires OneLine(h) && Tight(h) && h != "" && h[0] == '#'
    ensures View(h, Kept) == [h] && Strip(h) == h && Key(h) == ""
  {
    ViewOneLine(h, Kept);
    StripTight(h);
  }

  lemma {:induction false} EnvironmentIsALine()
    ensures OneLine(ENVIRONMENT) && ENVIRONMENT != "" && Tight(ENVIRONMENT) && ENVIRONMENT[0] == '#'
  {}

  lemma {:induction false} DeadEndIsALine()
    ensures OneLine(DEAD_END) && DEAD_END != "" && Tight(DEAD_END) && DEAD_END[0] == '#'
  {}

  lemma {:induction false} StrategyIsALine()
    ensures OneLine(STRATEGY) && STRATEGY != "" && Tight(STRATEGY) && STRATEGY[0] == '#'
  {}

  lemma {:induction false} HeadersDiffer()
    ensures ENVIRONMENT != DEAD_END && ENVIRONMENT != STRATEGY && DEAD_END != STRATEGY
  {
    assert ENVIRONMENT[3] == '환' && DEAD_END[3] == '확' && STRATEGY[3] == '검';
  }

  lemma {:induction false} HeaderReads(s: Section)
    ensures HeaderReadsBack(s)
  {
    HeadersDiffer();
    match s {
      case Environment => EnvironmentIsALine(); HeaderLine(ENVIRONMENT);
      case DeadEnd => DeadEndIsALine(); HeaderLine(DEAD_END);
      case Strategy => StrategyIsALine(); HeaderLine(STRATEGY);
    }
  }

  lemma {:induction false} PreambleKept(ls: seq<string>)
    requires KeptShape(ls)
    ensures Each(if ls == [] then [] else [Join(ls, NL)], Kept) == ls
  {
    if ls != [] {
      KeptOfJoin(ls);
      var p := Join(ls, NL);
      assert [p][1..] == [];
      assert Each([p], Kept) == View(p, Kept);
    }
  }

  lemma {:induction false} EachParts(a: seq<string>, b: seq<string>, c: seq<string>, d: seq<string>)
    ensures Each(a + (b + (c + d)), Kept) == Each(a, Kept) + (Each(b, Kept) + (Each(c, Kept) + Each(d, Kept)))
  {
    EachConcat(a, b + (c + d), Kept);
    EachConcat(b, c + d, Kept);
    EachConcat(c, d, Kept);
  }

  lemma {:induction false} CleanIsKept(t: Sheet)
    requires CleanSheet(t, Opens)
    ensures KeptShape(t.preamble) && KeptShape(t.environment) && KeptShape(t.deadEnds) && KeptShape(t.strategies)
  {}

  lemma {:induction false} PartsKept(t: Sheet)
    requires CleanSheet(t, Opens)
    ensures Each(Parts(t), Kept) == Listing(t)
  {
    CleanIsKept(t);
    PreambleKept(t.preamble);
    HeaderReads(Environment);
    HeaderReads(DeadEnd);
    HeaderReads(Strategy);
    PartKept(ENVIRONMENT, t.environment);
    PartKept(DEAD_END, t.deadEnds);
    PartKept(STRATEGY, t.strategies);
    EachParts(if t.preamble == [] then [] else [Join(t.preamble, NL)], Part(ENVIRONMENT, t.environment),
              Part(DEAD_END, t.deadEnds), Part(STRATEGY, t.strategies));
  }

  lemma {:induction false} TrailingNewline(s: string)
    ensures View(s + NL, Kept) == View(s, Kept)
  {
    assert s + NL == s + NL + "";
    ViewNewline(s, "", Kept);
    ViewOneLine("", Kept);
  }

  /** A layout reads back as the lines it prints. */
  lemma {:induction false} LayoutReadsBack(t: Sheet)
    requires CleanSheet(t, Opens)
    ensures KeptLines(Layout(t)) == Listing(t)
  {
    TrailingNewline(Join(Parts(t), NL + NL));
    ViewSections(Parts(t), Kept);
    PartsKept(t);
  }

  // Sorting a listing

  function AddAll(t: Sheet, section: Option<Section>, ls: seq<string>): Sheet {
    match section
    case None => t.(preamble := t.preamble + ls)
    case Some(Environment) => t.(environment := t.environment + ls)
    case Some(DeadEnd) => t.(deadEnds := t.deadEnds + ls)
    case Some(Strategy) => t.(strategies := t.strategies + ls)
  }

  lemma {:induction false} AddAllMore(t: Sheet, section: Option<Section>, ls: seq<string>)
    requires ls != []
    ensures |ls| == 1 ==> AddAll(t, section, ls) == Add(t, section, ls[0])
    ensures |ls| > 1 ==> AddAll(Add(t, section, ls[0]), section, ls[1..]) == AddAll(t, section, ls)
  {
    assert ls == [ls[0]] + ls[1..];
    if |ls| == 1 {
      assert ls == [ls[0]];
    }
  }

  lemma {:induction false} SortFirst(t: Sheet, ls: seq<string>, opens: string -> Option<Section>)
    requires ls != [] && opens(Strip(ls[0])).None?
    ensures Sort(t, ls, opens) == Sort(Add(t, t.current, ls[0]), ls[1..], opens)
    ensures Add(t, t.current, ls[0]).current == t.current
  {}

  lemma {:induction false} SortPlain(t: Sheet, ls: seq<string>, opens: string -> Option<Section>)
    requires Clean(ls, opens) && ls != []
    ensures Sort(t, ls, opens) == AddAll(t, t.current, ls)
    decreases |ls|
  {
    SortFirst(t, ls, opens);
    AddAllMore(t, t.current, ls);
    if |ls| > 1 {
      SortPlain(Add(t, t.current, ls[0]), ls[1..], opens);
    }
  }

  lemma {:induction false} SortConcat(t: Sheet, a: seq<string>, b: seq<string>, opens: string -> Option<Section>)
    ensures Sort(t, a + b, opens) == Sort(Sort(t, a, opens), b, opens)
    decreases |a|
  {
    if a == [] {
      assert a + b == b;
    } else {
      assert (a + b)[1..] == a[1..] + b;
      SortConcat(Put(t, a[0], opens), a[1..], b, opens);
    }
  }

  function Filled(t: Sheet, s: Section, ls: seq<string>): Sheet {
    if ls == [] then t else AddAll(t.(current := Some(s)), Some(s), ls)
  }

  lemma {:induction false} SortTitled(t: Sheet, h: string, s: Section, ls: seq<string>,
                                      opens: string -> Option<Section>)
    requires opens(Strip(h)) == Some(s) && Clean(ls, opens)
    ensures Sort(t, Titled(h, ls), opens) == Filled(t, s, ls)
  {
    if ls != [] {
      SortStep(t, h, ls, opens, Key);
      SortPlain(t.(current := Some(s)), ls, opens);
    }
  }

  /** Sorting what a sheet prints gives the sheet back, but for the open section. */
  lemma {:induction false} SortListing(t: Sheet) returns (u: Sheet)
    requires CleanSheet(t, Opens)
    ensures u == Sort(BLANK, Listing(t), Opens) && u.(current := None) == t.(current := None)
  {
    var b := Titled(ENVIRONMENT, t.environment);
    var c := Titled(DEAD_END, t.deadEnds);
    var d := Titled(STRATEGY, t.strategies);
    SortConcat(BLANK, t.preamble, b + (c + d), Opens);
    var w := Sort(BLANK, t.preamble, Opens);
    assert w == Sheet(t.preamble, [], [], [], None) by {
      if t.preamble != [] {
        SortPlain(BLANK, t.preamble, Opens);
        assert [] + t.preamble == t.preamble;
      }
    }
    HeaderReads(Environment);
    HeaderReads(DeadEnd);
    HeaderReads(Strategy);
    SortTitled(w, ENVIRONMENT, Environment, t.environment, Opens);
    SortConcat(w, b, c + d, Opens);
    var x := Filled(w, Environment, t.environment);
    SortTitled(x, DEAD_END, DeadEnd, t.deadEnds, Opens);
    SortConcat(x, c, d, Opens);
    var y := Filled(x, DeadEnd, t.deadEnds);
    SortTitled(y, STRATEGY, Strategy, t.strategies, Opens);
    u := Filled(y, Strategy, t.strategies);
    assert [] + t.environment == t.environment && [] + t.deadEnds == t.deadEnds && [] + t.strategies == t.strategies;
  }

  // Rules

  lemma {:induction false} RulesOfConcat(a: seq<string>, b: seq<string>, key: string -> string)
    ensures RulesOf(a + b, key) == RulesOf(a, key) + RulesOf(b, key)
  {
    if a == [] {
      assert a + b == b;
    } else {
      assert (a + b)[1..] == a[1..] + b;
      RulesOfConcat(a[1..], b, key);
    }
  }

  lemma {:induction false} RulesOfOne(l: string, key: string -> string)
    ensures RulesOf([l], key) == if key(l) == "" then {} else {key(l)}
  {
    assert [l][1..] == [];
  }

  function SheetRules(t: Sheet, key: string -> string): set<string> {
    RulesOf(t.preamble, key) + RulesOf(t.environment, key) + RulesOf(t.deadEnds, key) + RulesOf(t.strategies, key)
  }

  lemma {:induction false} AddRule(t: Sheet, section: Option<Section>, l: string, key: string -> string)
    ensures SheetRules(Add(t, section, l), key) == SheetRules(t, key) + if key(l) == "" then {} else {key(l)}
  {
    RulesOfOne(l, key);
    match section {
      case None => RulesOfConcat(t.preamble, [l], key);
      case Some(Environment) => RulesOfConcat(t.environment, [l], key);
      case Some(DeadEnd) => RulesOfConcat(t.deadEnds, [l], key);
      case Some(Strategy) => RulesOfConcat(t.strategies, [l], key);
    }
  }

  /** Sorting lines loses and invents no rule. */
  lemma {:induction false} SortRules(t: Sheet, ls: seq<string>, opens: string -> Option<Section>, key: string -> string)
    requires forall l {:trigger opens(Strip(l))} :: opens(Strip(l)).Some? ==> key(l) == ""
    ensures SheetRules(Sort(t, ls, opens), key) == SheetRules(t, key) + RulesOf(ls, key)
    decreases |ls|
  {
    if ls != [] {
      var l := ls[0];
      AddRule(t, t.current, l, key);
      SortRules(Put(t, l, opens), ls[1..], opens, key);
    }
  }

  lemma {:induction false} TitledRules(h: string, ls: seq<string>, key: string -> string)
    requires key(h) == ""
    ensures RulesOf(Titled(h, ls), key) == RulesOf(ls, key)
  {
    if ls != [] {
      RulesOfOne(h, key);
      RulesOfConcat([h], ls, key);
    }
  }

  lemma {:induction false} ListingRules(t: Sheet)
    ensures RulesOf(Listing(t), Key) == SheetRules(t, Key)
  {
    var b := Titled(ENVIRONMENT, t.environment);
    var c := Titled(DEAD_END, t.deadEnds);
    var d := Titled(STRATEGY, t.strategies);
    HeaderReads(Environment);
    HeaderReads(DeadEnd);
    HeaderReads(Strategy);
    TitledRules(ENVIRONMENT, t.environment, Key);
    TitledRules(DEAD_END, t.deadEnds, Key);
    TitledRules(STRATEGY, t.strategies, Key);
    RulesOfConcat(t.preamble, b + (c + d), Key);
    RulesOfConcat(b, c + d, Key);
    RulesOfConcat(c, d, Key);
  }

  /** The sheet a text is sorted into. */
  lemma {:induction false} Sorted(text: string) returns (t: Sheet)
    ensures t == Sort(BLANK, KeptLines(text), Opens) && CleanSheet(t, Opens) && SheetRules(t, Key) == Rules(text)
  {
    t := Sort(BLANK, KeptLines(text), Opens);
    KeptLinesShape(text);
    SortClean(BLANK, KeptLines(text), Opens);
    forall l | Opens(Strip(l)).Some?
      ensures Key(l) == ""
    {
      OpensNoRule(l);
    }
    SortRules(BLANK, KeptLines(text), Opens, Key);
  }

  lemma {:induction false} LayoutRules(t: Sheet)
    requires CleanSheet(t, Opens)
    ensures Rules(Layout(t)) == SheetRules(t, Key)
  {
    LayoutReadsBack(t);
    ListingRules(t);
  }

  lemma {:induction false} BulletIsPlain(k: string)
    requires Neat(k) && k != ""
    ensures Clean(["- " + k], Opens) && Key("- " + k) == k
  {
    KeyOfBullet(k);
    var b := "- " + k;
    assert b[0] == '-';
    EnvironmentIsALine();
    DeadEndIsALine();
    StrategyIsALine();
  }

  lemma {:induction false} CleanMore(t: Sheet, section: Option<Section>, l: string, opens: string -> Option<Section>)
    requires CleanSheet(t, opens) && Clean([l], opens)
    ensures CleanSheet(Add(t, section, l), opens)
  {
    assert [l][0] == l;
  }

  lemma {:induction false} ExtendedClean(t: Sheet, section: Section, rule: string, existing: set<string>)
    requires CleanSheet(t, Opens) && SheetRules(t, Key) == existing
    ensures CleanSheet(Extended(t, section, rule, existing), Opens)
    ensures SheetRules(Extended(t, section, rule, existing), Key)
            == existing + if Key(rule) == "" then {} else {Key(rule)}
  {
    var k := Key(rule);
    if k != "" && k !in existing {
      KeyNeat(rule);
      BulletIsPlain(k);
      CleanMore(t, Some(section), "- " + k, Opens);
      AddRule(t, Some(section), "- " + k, Key);
    }
  }

  /** Merging a rule adds exactly that rule: no other is lost, none is invented. */
  lemma {:induction false} MergedRules(text: string, section: Section, rule: string)
    ensures Rules(Merge(text, section, rule)) == Rules(text) + if Key(rule) == "" then {} else {Key(rule)}
  {
    var t := Sorted(text);
    ExtendedClean(t, section, rule, Rules(text));
    LayoutRules(Extended(t, section, rule, Rules(text)));
  }

  lemma {:induction false} SameLayout(t: Sheet, u: Sheet)
    requires u.(current := None) == t.(current := None)
    ensures Layout(u) == Layout(t)
  {
    assert Parts(u) == Parts(t);
  }

  lemma {:induction false} MergedSheet(text: string, section: Section, rule: string) returns (t: Sheet)
    ensures CleanSheet(t, Opens) && Merge(text, section, rule) == Layout(t)
  {
    t := Sorted(text);
    ExtendedClean(t, section, rule, Rules(text));
    t := Extended(t, section, rule, Rules(text));
  }

  lemma {:induction false} NothingNew(text: string, section: Section, rule: string)
    requires Key(rule) == "" || Key(rule) in Rules(text)
    ensures Merge(text, section, rule) == Layout(Sort(BLANK, KeptLines(text), Opens))
  {}

  /** Merging a rule that a merged text already holds, in whatever section, changes nothing. */
  lemma {:induction false} MergeAgain(text: string, section: Section, rule: string, other: Section, again: string)
    requires Key(again) == "" || Key(again) in Rules(Merge(text, section, rule))
    ensures Merge(Merge(text, section, rule), other, again) == Merge(text, section, rule)
  {
    var t := MergedSheet(text, section, rule);
    NothingNew(Merge(text, section, rule), other, again);
    LayoutReadsBack(t);
    var u := SortListing(t);
    SameLayout(t, u);
  }

  // Sections

  /** The sheet a text is read as. */
  function SheetOf(text: string): Sheet { Sort(BLANK, KeptLines(text), Opens) }

  /** The lines of a section, or those in front of all. */
  function LinesIn(t: Sheet, section: Option<Section>): seq<string> {
    if section == None then t.preamble
    else if section == Some(Environment) then t.environment
    else if section == Some(DeadEnd) then t.deadEnds
    else t.strategies
  }

  lemma {:induction false} MergedReads(text: string, section: Section, rule: string) returns (t: Sheet, u: Sheet)
    ensures t == SheetOf(text) && u == SheetOf(Merge(text, section, rule))
    ensures u.(current := None) == Extended(t, section, rule, Rules(text)).(current := None)
  {
    t := Sorted(text);
    ExtendedClean(t, section, rule, Rules(text));
    var e := Extended(t, section, rule, Rules(text));
    LayoutReadsBack(e);
    u := SortListing(e);
  }

  lemma {:induction false} ExtendedLines(t: Sheet, u: Sheet, section: Section, rule: string, key: string,
                                         existing: set<string>, other: Option<Section>)
    requires key == Key(rule) && u.(current := None) == Extended(t, section, rule, existing).(current := None)
    ensures LinesIn(u, other) == if other == Some(section) && key != "" && key !in existing
                                 then LinesIn(t, other) + ["- " + key] else LinesIn(t, other)
  {
    var e := Extended(t, section, rule, existing);
    var v, w := u.(current := None), e.(current := None);
    assert u.preamble == v.preamble == w.preamble == e.preamble;
    assert u.environment == v.environment == w.environment == e.environment;
    assert u.deadEnds == v.deadEnds == w.deadEnds == e.deadEnds;
    assert u.strategies == v.strategies == w.strategies == e.strategies;
    assert LinesIn(u, other) == LinesIn(e, other);
    if key != "" && key !in existing {
      assert e == Add(t, Some(section), "- " + key);
      AddedLine(t, section, "- " + key, other);
    }
  }

  lemma {:induction false} AddedLine(t: Sheet, section: Section, l: string, other: Option<Section>)
    ensures LinesIn(Add(t, Some(section), l), other)
            == if other == Some(section) then LinesIn(t, other) + [l] else LinesIn(t, other)
  {
    match section {
      case Environment =>
      case DeadEnd =>
      case Strategy =>
    }
    assert other == None || other == Some(Environment) || other == Some(DeadEnd) || other == Some(Strategy) by {
      if other.Some? {
        match other.value {
          case Environment =>
          case DeadEnd =>
          case Strategy =>
        }
      }
    }
  }

  /** Merging adds a new rule as the last line of its own section; every other line stays in
      its section, in order, and so does what stands in front of all sections. */
  lemma {:induction false} MergedSections(text: string, section: Section, rule: string, other: Option<Section>)
    ensures var before, after := LinesIn(SheetOf(text), other), LinesIn(SheetOf(Merge(text, section, rule)), other);
      after == if other == Some(section) && Key(rule) != "" && Key(rule) !in Rules(text)
               then before + ["- " + Key(rule)] else before
  {
    var t, u := MergedReads(text, section, rule);
    ExtendedLines(t, u, section, rule, Key(rule), Rules(text), other);
  }

  /** The lines of a sheet, section by section, each under its heading. */
  function InOrder(t: Sheet, titled: (string, seq<string>) -> seq<string>): seq<string> {
    LinesIn(t, None)
    + (titled(ENVIRONMENT, LinesIn(t, Some(Environment)))
       + (titled(DEAD_END, LinesIn(t, Some(DeadEnd))) + titled(STRATEGY, LinesIn(t, Some(Strategy)))))
  }

  lemma {:induction false} ListedInOrder(e: Sheet, u: Sheet, titled: (string, seq<string>) -> seq<string>)
    requires u.(current := None) == e.(current := None)
    ensures InOrder(u, titled) == e.preamble + (titled(ENVIRONMENT, e.environment)
              + (titled(DEAD_END, e.deadEnds) + titled(STRATEGY, e.strategies)))
  {
    var v, w := u.(current := None), e.(current := None);
    assert u.preamble == v.preamble == w.preamble == e.preamble;
    assert u.environment == v.environment == w.environment == e.environment;
    assert u.deadEnds == v.deadEnds == w.deadEnds == e.deadEnds;
    assert u.strategies == v.strategies == w.strategies == e.strategies;
  }

  /** The merged text holds, in this order and nothing else: what stands in front, the rules
      on the environment, the dead ends, and the strategies, each under its heading. */
  lemma {:induction false} MergedReadsInOrder(text: string, section: Section, rule: string) returns (u: Sheet)
    ensures u == SheetOf(Merge(text, section, rule))
    ensures KeptLines(Merge(text, section, rule)) == InOrder(u, Titled)
  {
    var e := MergedSheet(text, section, rule);
    LayoutReadsBack(e);
    u := SortListing(e);
    ListedInOrder(e, u, Titled);
  }

  // Keys

  /** The key of a rule: its text with whitespace collapsed, without one of the three list
      markers in front; none for a heading or nothing. */
  lemma {:induction false} KeySays(t: string, marker: char)
    requires Tight(t)
    ensures t == "" || t[0] == '#' ==> Key(t) == ""
    ensures t != "" && marker in {'-', '*', '+'} ==> Key([marker, ' '] + t) == Collapse(t)
    ensures t != "" && t[0] !in {'#', '-', '*', '+'} ==> Key(t) == Collapse(t)
  {
    StripTight(t);
    if t != "" && marker in {'-', '*', '+'} {
      var s := [marker, ' '] + t;
      StripTight(s);
      assert s[1..] == [' '] + t && ([' '] + t)[1..] == t;
    }
  }
}
