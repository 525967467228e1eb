/** The playbook: its sections, its rules, and merging one rule into its text. */
module Playbook {
  import opened Text

  const MAX_CHARS := 4000

  datatype Section = Environment | DeadEnd | Strategy

  const ENVIRONMENT := "## 환경 및 도구 제약 (Environment Rules)"
  const DEAD_END := "## 확인된 무효 경로 (Dead Ends & Traps)"
  const STRATEGY := "## 검증된 성공 패턴 (Effective Strategies)"

  function HeaderOf(s: Section): string {
    match s
    case Environment => ENVIRONMENT
    case DeadEnd => DEAD_END
    case Strategy => STRATEGY
  }

  /** The section a stripped line opens. */
  function Opens(l: string): Option<Section> {
    if l == ENVIRONMENT then Some(Environment)
    else if l == DEAD_END then Some(DeadEnd)
    else if l == STRATEGY then Some(Strategy)
    else None
  }

  /** A text without a leading list marker and the whitespace behind it. */
  function Unbulleted(s: string): string {
    if |s| > 1 && (s[0] == '-' || s[0] == '*' || s[0] == '+') && IsSpace(s[1]) then LStrip(s[1..]) else s
  }

  /** _playbook_rule_key. */
  function Key(value: string): string {
    var s := Strip(value);
    if s == "" || s[0] == '#' then "" else Collapse(Unbulleted(s))
  }

  /** A line as the merge keeps it. */
  function Kept(l: string): seq<string> {
    if Strip(l) == "" then [] else [RStrip(l)]
  }

  datatype Sheet = Sheet(preamble: seq<string>, environment: seq<string>, deadEnds: seq<string>,
                         strategies: seq<string>,
                         current: Option<Section>)

  const BLANK := Sheet([], [], [], [], None)

  function Add(t: Sheet, section: Option<Section>, l: string): Sheet {
    match section
    case None => t.(preamble := t.preamble + [l])
    case Some(Environment) => t.(environment := t.environment + [l])
    case Some(DeadEnd) => t.(deadEnds := t.deadEnds + [l])
    case Some(Strategy) => t.(strategies := t.strategies + [l])
  }

  /** One kept line. */
  function Put(t: Sheet, l: string, opens: string -> Option<Section>): Sheet {
    var s := opens(Strip(l));
    if s.Some? then t.(current := s) else Add(t, t.current, l)
  }

  function Sort(t: Sheet, ls: seq<string>, opens: string -> Option<Section>): Sheet
    decreases |ls|
  {
    if ls == [] then t else Sort(Put(t, ls[0], opens), ls[1..], opens)
  }

  /** The rules a list of lines holds. */
  function RulesOf(ls: seq<string>, key: string -> string): set<string> {
    if ls == [] then {}
    else RulesOf(ls[1..], key) + if key(ls[0]) == "" then {} else {key(ls[0])}
  }

  function KeptLines(text: string): seq<string> { View(text, Kept) }

  function Rules(text: string): set<string> { RulesOf(KeptLines(text), Key) }

  function Part(header: string, ls: seq<string>): seq<string> {
    if ls == [] then [] else [header + NL + Join(ls, NL)]
  }

  function Parts(t: Sheet): seq<string> {
    (if t.preamble == [] then [] else [Join(t.preamble, NL)])
    + (Part(ENVIRONMENT, t.environment) + (Part(DEAD_END, t.deadEnds) + Part(STRATEGY, t.strategies)))
  }

  function Layout(t: Sheet): string { Join(Parts(t), NL + NL) + NL }

  function Extended(t: Sheet, section: Section, rule: string, existing: set<string>): Sheet {
    if Key(rule) != "" && Key(rule) !in existing then Add(t, Some(section), "- " + Key(rule)) else t
  }

  /** _merge_playbook_rule. */
  function Merge(text: string, section: Section, rule: string): string {
    Layout(Extended(Sort(BLANK, KeptLines(text), Opens), section, rule, Rules(text)))
  }

  lemma {:induction false} OpensNoRule(l: string)
    requires Opens(Strip(l)).Some?
    ensures Key(l) == ""
  {}

  lemma {:induction false} StripRStrip(l: string)
    ensures Strip(RStrip(l)) == Strip(l)
  {
    var r := RStrip(l);
    RStripStable(r);
  }

  lemma {:induction false} RStripStable(r: string)
    requires r == "" || !IsSpace(r[|r| - 1])
    ensures RStrip(r) == r
  {}

  lemma {:induction false} KeptStep(lines: seq<string>, i: nat)
    requires i < |lines|
    ensures ViewAll(lines[i..], Kept) ==
      if Strip(lines[i]) == "" then ViewAll(lines[i + 1..], Kept)
      else [RStrip(lines[i])] + ViewAll(lines[i + 1..], Kept)
  {
    assert lines[i..][1..] == lines[i + 1..];
  }

  lemma {:induction false} SortStep(t: Sheet, l: string, rest: seq<string>, opens: string -> Option<Section>,
                                    key: string -> string)
    ensures Sort(t, [l] + rest, opens) == Sort(Put(t, l, opens), rest, opens)
    ensures RulesOf([l] + rest, key) == RulesOf(rest, key) + if key(l) == "" then {} else {key(l)}
  {
    assert ([l] + rest)[1..] == rest;
  }

  lemma {:induction false} OneLineMore(t: Sheet, l: string, rest: seq<string>)
    requires Strip(l) != ""
    ensures Sort(t, [RStrip(l)] + rest, Opens)
            == Sort(if Opens(Strip(l)).Some? then t.(current := Opens(Strip(l))) else Add(t, t.current, RStrip(l)),
                    rest, Opens)
    ensures RulesOf([RStrip(l)] + rest, Key) == RulesOf(rest, Key) + if Key(l) == "" then {} else {Key(l)}
    ensures Opens(Strip(l)).Some? ==> Key(l) == ""
  {
    StripRStrip(l);
    SortStep(t, RStrip(l), rest, Opens, Key);
    if Opens(Strip(l)).Some? {
      OpensNoRule(l);
    }
  }

  /** The merge's loop over the lines. */
  method SortLines(lines: seq<string>) returns (t: Sheet, rules: set<string>)
    ensures t == Sort(BLANK, ViewAll(lines, Kept), Opens)
    ensures rules == RulesOf(ViewAll(lines, Kept), Key)
  {
    t, rules := BLANK, {};
    assert lines[0..] == lines;
    for i := 0 to |lines|
      invariant Sort(BLANK, ViewAll(lines, Kept), Opens) == Sort(t, ViewAll(lines[i..], Kept), Opens)
      invariant RulesOf(ViewAll(lines, Kept), Key) == RulesOf(ViewAll(lines[i..], Kept), Key) + rules
    {
      var l := lines[i];
      KeptStep(lines, i);
      var stripped := Strip(l);
      if stripped == "" {
        continue;
      }
      OneLineMore(t, l, ViewAll(lines[i + 1..], Kept));
      var section := Opens(stripped);
      if section.Some? {
        t := t.(current := section);
        continue;
      }
      if Key(l) != "" {
        rules := rules + {Key(l)};
      }
      t := Add(t, t.current, RStrip(l));
    }
  }

  method MergePlaybookRule(text: string, section: Section, rule: string) returns (merged: string)
    ensures merged == Merge(text, section, rule)
  {
    ViewSplit(text, Kept);
    var t, rules := SortLines(SplitLines(text));
    if Key(rule) != "" && Key(rule) !in rules {
      t := Add(t, Some(section), "- " + Key(rule));
    }
    merged := Layout(t);
  }
}
