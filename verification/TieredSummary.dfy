/** The tiered summary of bot.py: its printer and its parser. */
module TieredSummary {
  import opened Text

  const VERSION := "요약 형식 버전: 2"
  const TIER3_HEADER := "## 🗺️ 장기 절차 요약 (Tier 3)"
  const TIER2_HEADER := "## 🧭 중기 스텝 인덱스 (Tier 2)"
  const ARTIFACTS_HEADER := "## 📁 핵심 발견 및 산출물 색인"
  const NOTICE_HEAD := "> 절차적 시도·차단 원인·대안만 기록합니다. 목표·사실·결론·가설 상태는 "
  const NOTICE_TAIL := "마지막 [권위 있는 조사 상태] 블록만 신뢰하세요."
  const NOTICE := NOTICE_HEAD + NOTICE_TAIL
  const RANGE_PREFIX := "적용 범위: Step 1-"
  const NO_RANGE := "적용 범위: 없음"
  const TIER3_EMPTY := "(아직 장기 절차 이력 없음)"
  const TIER2_EMPTY := "(아직 중기 스텝 인덱스 없음)"
  const BODY_MARK := "[절차 본문] "
  const CUT_MARK := "…[생략] "
  const TIER3_CHARS := 2000
  const TIER2_LINES := 20
  const TIER2_CHARS := 280
  const DISCOVERY_LINES := 10
  const DISCOVERY_CHARS := 140

  /** What a stripped line is to the parser. */
  datatype Kind =
    | Version | Tier3Header | Tier2Header | ArtifactsHeader | Notice | NoRange | Range(through: Option<int>)
    | Tier3Empty | Tier2Empty | Prose

  predicate StartsWith(s: string, p: string) {
    |p| <= |s| && s[..|p|] == p
  }

  function Classify(l: string): Kind {
    if l == VERSION then Version
    else if l == TIER3_HEADER then Tier3Header
    else if l == TIER2_HEADER then Tier2Header
    else if l == ARTIFACTS_HEADER then ArtifactsHeader
    else if l == NOTICE then Notice
    else if l == NO_RANGE then NoRange
    else if StartsWith(l, RANGE_PREFIX) then Range(ParseInt(l[|RANGE_PREFIX|..]))
    else if l == TIER3_EMPTY then Tier3Empty
    else if l == TIER2_EMPTY then Tier2Empty
    else Prose
  }

  predicate IsHeader(k: Kind) { k.Tier3Header? || k.Tier2Header? || k.ArtifactsHeader? }

  // The parser

  datatype Section = Outside | AtNotice | AtRange | Body | Tier2 | Discoveries

  datatype State = State(section: Section, tier3: seq<string>, through: nat,
                         tier2: seq<string>, discoveries: seq<string>)

  datatype Parsed = Parsed(tier3: string, through: nat, tier2: seq<string>, discoveries: seq<string>)

  const EMPTY := Parsed("", 0, [], [])
  const START := State(Outside, [], 0, [], [])

  /** One non-blank line; None where the parser gives up. */
  function Step(st: State, k: Kind, l: string): Option<State> {
    if k.Tier3Header? then if st.section.Outside? then Some(st.(section := AtNotice)) else None
    else if k.Tier2Header? then if st.section.Body? then Some(st.(section := Tier2)) else None
    else if k.ArtifactsHeader? then if st.section.Tier2? then Some(st.(section := Discoveries)) else None
    else
      match st.section
      case Outside => None
      case AtNotice => if k.Notice? then Some(st.(section := AtRange)) else None
      case AtRange =>
        if k.NoRange? then Some(st.(section := Body, through := 0))
        else if k.Range? && k.through.Some? then
          Some(st.(section := Body, through := if k.through.value > 0 then k.through.value else 0))
        else None
      case Body =>
        if k.Notice? || k.NoRange? || k.Range? then None
        else if k.Tier3Empty? then Some(st)
        else Some(st.(tier3 := st.tier3 + [l]))
      case Tier2 => if k.Tier2Empty? then Some(st) else Some(st.(tier2 := st.tier2 + [l]))
      case Discoveries => Some(st.(discoveries := st.discoveries + [l]))
  }

  function Run(st: State, ls: seq<string>, kind: string -> Kind): Option<State>
    decreases |ls|
  {
    if ls == [] then Some(st)
    else
      match Step(st, kind(ls[0]), ls[0])
      case None => None
      case Some(next) => Run(next, ls[1..], kind)
  }

  function Finish(r: Option<State>): Parsed {
    if r.Some? && (r.value.section.Tier2? || r.value.section.Discoveries?) then
      Parsed(Strip(Join(r.value.tier3, NL)), r.value.through, r.value.tier2, r.value.discoveries)
    else EMPTY
  }

  function ParseLines(ls: seq<string>, kind: string -> Kind): Parsed {
    if ls == [] || ls[0] != VERSION then EMPTY else Finish(Run(START, ls[1..], kind))
  }

  /** parse_tiered_summary, on the non-blank lines of the text. */
  function Parse(text: string): Parsed {
    ParseLines(Lines(text), Classify)
  }

  lemma {:induction false} FirstLineIsSeen(s: string)
    requires s != "" && Tight(s)
    ensures SplitLines(s) != [] && Seen(SplitLines(s)[0]) == [Strip(SplitLines(s)[0])]
    ensures Lines(s) == Seen(SplitLines(s)[0]) + ViewAll(SplitLines(s)[1..], Seen)
  {
    var l := SplitLines(s)[0];
    assert l != "" && l[0] == s[0];
    StripKeepsFirst(l);
    ViewSplit(s, Seen);
  }

  lemma {:induction false} StripKeepsFirst(s: string)
    requires s != "" && !IsSpace(s[0])
    ensures Strip(s) != "" && Strip(s)[0] == s[0]
  {
    if IsSpace(s[|s| - 1]) {
      StripKeepsFirst(s[..|s| - 1]);
    }
  }

  lemma {:induction false} LinesStrip(s: string)
    ensures Lines(Strip(s)) == Lines(s)
  {
    SeenIgnoresSpace();
    ViewStrip(s, Seen);
  }

  lemma {:induction false} SeenStep(ls: seq<string>, i: nat)
    requires i < |ls|
    ensures ViewAll(ls[i..], Seen) ==
      if Strip(ls[i]) == "" then ViewAll(ls[i + 1..], Seen) else [Strip(ls[i])] + ViewAll(ls[i + 1..], Seen)
  {
    assert ls[i..][1..] == ls[i + 1..];
  }

  lemma {:induction false} RunStep(st: State, l: string, rest: seq<string>, kind: string -> Kind)
    ensures Run(st, [l] + rest, kind) ==
      match Step(st, kind(l), l)
      case None => None
      case Some(next) => Run(next, rest, kind)
  {
    assert ([l] + rest)[1..] == rest;
  }

  /** The parser's loop behind the version line. */
  method ScanLines(lines: seq<string>, kind: string -> Kind) returns (r: Option<State>)
    ensures r == Run(START, ViewAll(lines, Seen), kind)
  {
    var st := START;
    assert lines[0..] == lines;
    for i := 0 to |lines|
      invariant Run(START, ViewAll(lines, Seen), kind) == Run(st, ViewAll(lines[i..], Seen), kind)
    {
      SeenStep(lines, i);
      var trimmed := Strip(lines[i]);
      if trimmed != "" {
        RunStep(st, trimmed, ViewAll(lines[i + 1..], Seen), kind);
        var next := Step(st, kind(trimmed), trimmed);
        if next.None? {
          return None;
        }
        st := next.value;
      }
    }
    r := Some(st);
  }

  method ParseTieredSummary(text: string) returns (r: Parsed)
    ensures r == Parse(text)
  {
    var stripped := Strip(text);
    LinesStrip(text);
    var lines := SplitLines(stripped);
    if lines == [] {
      ViewSplit(stripped, Seen);
      return EMPTY;
    }
    FirstLineIsSeen(stripped);
    if Strip(lines[0]) != VERSION {
      return EMPTY;
    }
    var st := ScanLines(lines[1..], Classify);
    assert Lines(text)[1..] == ViewAll(lines[1..], Seen);
    r := Finish(st);
  }

  // The printer

  function Guard(line: string): string {
    if Classify(Strip(line)) != Prose then BODY_MARK + line else line
  }

  function Mapped(lines: seq<string>, f: string -> string): (r: seq<string>)
    ensures |r| == |lines|
    ensures forall j :: 0 <= j < |r| ==> r[j] == f(lines[j])
  {
    seq(|lines|, j requires 0 <= j < |lines| => f(lines[j]))
  }

  function Guarded(lines: seq<string>): seq<string> { Mapped(lines, Guard) }

  /** Index of the first newline at or after i, or the length. */
  function NewlineFrom(s: string, i: nat): (e: nat)
    requires i <= |s|
    ensures i <= e <= |s| && (e < |s| ==> s[e] == '\n')
    ensures forall k :: i <= k < e ==> s[k] != '\n'
    decreases |s| - i
  {
    if i == |s| || s[i] == '\n' then i else NewlineFrom(s, i + 1)
  }

  /** Where the first whole line behind place k starts, or k when there is none. */
  function WholeFrom(t: string, k: nat): (i: nat)
    requires k <= |t|
    ensures k <= i <= |t|
  {
    var e := NewlineFrom(t, k);
    if e < |t| then e + 1 else k
  }

  /** What is sent of a text cut at place k; its last n characters when only whitespace
      is left behind k. */
  function Marked(whole: string, mark: string, rest: string): string {
    if Strip(whole) == "" then rest else Strip(mark + whole)
  }

  /** The newest whole lines of a stripped text within n characters. */
  function Newest(t: string, n: nat): string {
    if |t| <= n then t
    else if n <= |CUT_MARK| then t[|t| - n..]
    else Marked(t[WholeFrom(t, |t| - (n - |CUT_MARK|))..], CUT_MARK, t[|t| - n..])
  }

  /** _tail_clip_summary_text. */
  function TailClip(text: string, n: nat): string {
    Newest(Strip(text), n)
  }

  /** The Tier 3 text as printed. */
  function Tier3Text(tier3: string): string {
    var t := TailClip(Join(Guarded(SplitLines(tier3)), NL), TIER3_CHARS);
    if t == "" then TIER3_EMPTY else t
  }

  /** The non-blank lines, each clipped to n characters. */
  function ClipLines(ls: seq<string>, n: nat): seq<string> {
    if ls == [] then []
    else if Strip(ls[0]) == "" then ClipLines(ls[1..], n)
    else [Clip(ls[0], n)] + ClipLines(ls[1..], n)
  }

  function Take(ls: seq<string>, n: nat): seq<string> {
    if |ls| <= n then ls else ls[..n]
  }

  function Tier2Printed(ls: seq<string>): seq<string> { Take(ClipLines(ls, TIER2_CHARS), TIER2_LINES) }

  function DiscoveriesPrinted(ls: seq<string>): seq<string> { Take(ClipLines(ls, DISCOVERY_CHARS), DISCOVERY_LINES) }

  function Positive(n: int): nat { if n > 0 then n else 0 }

  function Coverage(through: int): string {
    if through > 0 then RANGE_PREFIX + Decimal(through) else NO_RANGE
  }

  function Sections(tier3: string, through: int, tier2: seq<string>, discoveries: seq<string>): seq<string> {
    var t2, d := Tier2Printed(tier2), DiscoveriesPrinted(discoveries);
    [VERSION, Join([TIER3_HEADER, NOTICE, Coverage(through), Tier3Text(tier3)], NL),
     Join([TIER2_HEADER, if t2 == [] then TIER2_EMPTY else Join(t2, NL)], NL)]
    + if d == [] then [] else [Join([ARTIFACTS_HEADER, Join(d, NL)], NL)]
  }

  /** format_tiered_summary. */
  function Format(tier3: string, through: int, tier2: seq<string>, discoveries: seq<string>): string {
    Join(Sections(tier3, through, tier2, discoveries), NL + NL)
  }

  /** The printer's loop: every line of the procedure, marked where that is needed. */
  method MarkLines(lines: seq<string>, mark: string -> string) returns (safe: seq<string>)
    ensures safe == Mapped(lines, mark)
  {
    safe := [];
    for i := 0 to |lines|
      invariant |safe| == i && forall j :: 0 <= j < i ==> safe[j] == mark(lines[j])
    {
      safe := safe + [mark(lines[i])];
    }
  }

  method FormatTieredSummary(tier3: string, through: int, tier2: seq<string>, discoveries: seq<string>)
    returns (r: string)
    ensures r == Format(tier3, through, tier2, discoveries)
  {
    var safe := MarkLines(SplitLines(tier3), Guard);
    var text := TailClip(Join(safe, NL), TIER3_CHARS);
    assert Tier3Text(tier3) == if text == "" then TIER3_EMPTY else text;
    r := Join(Sections(tier3, through, tier2, discoveries), NL + NL);
  }
}
