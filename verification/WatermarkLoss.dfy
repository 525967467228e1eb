/** When a printed watermark is read back: always if tool names and discoveries are single
    lines, and a run in which it is lost because one is not. */
module WatermarkLoss {
  import opened Text
  import opened TieredSummary
  import opened SummaryWatermark
  import opened SummaryRewrites
  import opened SummaryIdempotence
  import opened SummaryCoverage
  import opened Trajectory
  import opened TrajectoryIntegrity
  import opened Watermark
  import opened MicroIndex
  import opened WatermarkRuns

  // Names on one line

  lemma {:induction false} PlainIsOrderly(t2: seq<string>, d: seq<string>)
    requires PlainLines(t2, true) && PlainLines(d, false)
    ensures Orderly(Tier2Shown(t2) + DiscoveriesShown(d), 1)
  {
    ParseRecovers("", 1, t2, d);
    WatermarkIff("", 1, t2, d);
  }

  lemma {:induction false} PlainReadsBack(through: int, t2: seq<string>, d: seq<string>)
    requires PlainLines(t2, true) && PlainLines(d, false)
    ensures ReadsBack(through, t2, d)
  {
    PlainIsOrderly(t2, d);
  }

  /** Entries of the list of discoveries, each on one line. */
  ghost predicate Listed(items: seq<string>) {
    forall k {:trigger items[k]} :: 0 <= k < |items| ==> items[k] != "" && items[k][0] == '-' && OneLine(items[k])
  }

  lemma {:induction false} ListedIsPlain(items: seq<string>)
    requires Listed(items)
    ensures PlainLines(items, false)
  {
    forall k | 0 <= k < |items|
      ensures PlainLine(items[k], false)
    {
      MarkedIsPlain(items[k], false);
    }
  }

  /** The calls and entries an event brings in are named on one line. */
  ghost predicate Clean(e: Event) {
    match e
    case Append(g, _) => forall c :: c in g.calls ==> OneLine(c.name)
    case Rollover(_, _, m) => Listed(m.first) && Listed(m.generic)
    case Restart(_, _, m, _, _, _) => Listed(m.generic)
    case _ => true
  }

  lemma {:induction false} PlainConcat(a: seq<string>, b: seq<string>, c: seq<string>)
    requires PlainLines(a, false) && PlainLines(b, false) && PlainLines(c, false)
    ensures PlainLines(a + b + c, false)
  {
    var ls := a + b + c;
    forall k | 0 <= k < |ls|
      ensures PlainLine(ls[k], false)
    {
      if k < |a| {
        assert ls[k] == a[k];
      } else if k < |a| + |b| {
        assert ls[k] == b[k - |a|];
      } else {
        assert ls[k] == c[k - |a| - |b|];
      }
    }
  }

  lemma {:induction false} FoundIsPlain(summary: string, m: Material)
    requires Listed(m.first) && Listed(m.generic)
    ensures PlainLines(Found(summary, m), false)
  {
    var p := ParsedIsPlain(summary);
    PlainToPlainLines(p.discoveries, false);
    ListedIsPlain(m.first);
    ListedIsPlain(m.generic);
    var items := m.first + p.discoveries + m.generic;
    PlainConcat(m.first, p.discoveries, m.generic);
    MergedIsPlain(items, m.keep, |items|);
  }

  lemma {:induction false} CleanRollover(p: Position, d: Decoded, step: int, max: nat, m: Material, env: Env)
    requires NamesOneLine(d.records) && Listed(m.first) && Listed(m.generic)
    ensures RolloverReadsBack(p, d, step, max, m, env)
  {
    var ls := IndexIsPlain(d.records, Max(1, step - 29), step - 10, env.views);
    FoundIsPlain(p.summary, m);
    PlainReadsBack(Reached(Mark(p.summary), p.gap, d, step, max, env.render), ls, Found(p.summary, m));
  }

  lemma {:induction false} PlainRebuiltIndex(d: Decoded, last: int, v: Views) returns (ls: seq<string>)
    requires NamesOneLine(d.records)
    ensures ls == RebuiltIndex(d, last, v) && PlainLines(ls, true)
  {
    ls := IndexIsPlain(d.records, Max(1, last - 19), last, v);
  }

  lemma {:induction false} CleanRebuild(p: Position, d: Decoded, max: nat, m: Material, env: Env)
    requires NamesOneLine(d.records) && Listed(m.generic)
    ensures RemadeReadsBack(p, d, max, m, env)
  {
    var n := RebuiltMark(p, d, max, env.render);
    var ls := PlainRebuiltIndex(d, LastStep(Relied(p, d)), env.views);
    ListedIsPlain(m.generic);
    PlainReadsBack(n, ls, m.generic);
  }

  lemma {:induction false} CleanIsKept(s: Run, e: Event, env: Env)
    requires NamesOneLine(Decode(s.lines, env.hash).records) && Clean(e)
    ensures Kept(s, e, env)
  {
    match e {
      case Rollover(step, max, m) => CleanRollover(s.now, Decode(s.lines, env.hash), step, max, m, env);
      case Restart(readable, max, m, ok, _, _) =>
        if s.saved.Some? {
          CleanRebuild(s.saved.value, ReadLog(s.lines, readable, env.hash), max, m, env);
        }
      case _ =>
    }
  }

  lemma {:induction false} NamesStay(s: Run, e: Event, env: Env)
    requires Digests(env.hash) && NamesOneLine(Decode(s.lines, env.hash).records) && Clean(e)
    ensures NamesOneLine(Decode(Next(s, e, env).lines, env.hash).records)
  {
    if e.Append? {
      var more := AppendAdds(s.lines, e.group, e.fault, env.hash);
    }
  }

  ghost predicate AllClean(es: seq<Event>) {
    forall k {:trigger es[k]} :: 0 <= k < |es| ==> Clean(es[k])
  }

  lemma {:induction false} CleanRunIsKept(s: Run, es: seq<Event>, env: Env)
    requires Digests(env.hash) && NamesOneLine(Decode(s.lines, env.hash).records) && AllClean(es)
    ensures AllKept(s, es, env)
    decreases |es|
  {
    if es != [] {
      CleanIsKept(s, es[0], env);
      NamesStay(s, es[0], env);
      CleanRunIsKept(Next(s, es[0], env), es[1..], env);
    }
  }

  /** In every run whose recorded tool names and listed discoveries are single lines, every
      summary reads back and every record up to the watermark is handed over; and if no
      restart repeats a record, the sources partition the log up to the watermark. */
  lemma {:induction false} SingleLinesKeepWatermark(es: seq<Event>, t: Run, env: Env)
    requires Digests(env.hash) && Leads(BEGIN, es, t, env) && AllClean(es)
    ensures AllKept(BEGIN, es, env) && Complete(t, env)
    ensures NeverRepeats(BEGIN, es, env) ==> Partitions(t, env)
  {
    assert Decode([], env.hash).records == [];
    CleanRunIsKept(BEGIN, es, env);
    BeginPartitions(env);
    RunCompletes(BEGIN, es, t, env);
    if NeverRepeats(BEGIN, es, env) {
      SourcesPartitionTheLog(BEGIN, es, t, env);
    }
  }

  // A name of several lines

  lemma {:induction false} OneMore(s: Run, es: seq<Event>, t: Run, e: Event, env: Env)
    requires Leads(s, es, t, env) && Allowed(t, e)
    ensures Leads(s, es + [e], Next(t, e, env), env)
    decreases |es|
  {
    if es == [] {
      assert es + [e] == [e] && [e][1..] == [];
    } else {
      assert (es + [e])[1..] == es[1..] + [e] && (es + [e])[0] == es[0];
      OneMore(Next(s, es[0], env), es[1..], t, e, env);
    }
  }

  lemma {:induction false} Extend(s: Run, es: seq<Event>, t: Run, e: Event, env: Env) returns (es': seq<Event>, t': Run)
    requires Leads(s, es, t, env) && Allowed(t, e)
    ensures Leads(s, es', t', env) && t' == Next(t, e, env)
    ensures AllClean(es) && Clean(e) ==> AllClean(es')
  {
    OneMore(s, es, t, e, env);
    es', t' := es + [e], Next(t, e, env);
  }

  lemma {:induction false} Advances(s: Run, es: seq<Event>, t: Run, n: nat, env: Env) returns (es': seq<Event>, t': Run)
    requires Leads(s, es, t, env)
    ensures Leads(s, es', t', env) && t' == t.(now := t.now.(cursor := t.now.cursor + n))
    ensures AllClean(es) ==> AllClean(es')
  {
    es', t' := es, t;
    if n > 0 {
      es', t' := Advances(s, es, t, n - 1, env);
      es', t' := Extend(s, es', t', Advance, env);
    }
  }

  /** The group of one executed call with the given tool name. */
  function Single(step: int, name: string): Group {
    Group(step, [ToolCall(Some("a"), name, "{}", false, None)], ["ok"], {"a"})
  }

  lemma {:induction false} AppendsOne(lines: seq<Line>, step: int, name: string, h: Hash) returns (r: Record)
    requires Digests(h) && Decode(lines, h).complete && step > LastStep(Decode(lines, h).records) && step >= 1
    ensures var (after, outcome) := AppendTo(lines, Single(step, name), h, NoFault);
      outcome.Appended? && Decode(after, h) == Decoded(Decode(lines, h).records + [r], true)
    ensures r.body.step == step && r.body.tool == name
  {
    var g := Single(step, name);
    AppendIsAtomic(lines, g, h, NoFault);
    r := NewRecords(lines, g, h)[0];
    assert NewRecords(lines, g, h) == [r];
    ToolAt(g, LastId(Decode(lines, h).records), h, 1, 0);
  }

  /** Two eligible records, of the first two steps. */
  ghost predicate TwoSteps(a: Record, b: Record) {
    a.body.step == 1 && b.body.step == 2 && Eligible(a, 1, 2) && Eligible(b, 1, 2)
  }

  /** The log that holds them. */
  ghost predicate TwoRecords(d: Decoded, a: Record, b: Record) {
    d == Decoded([a, b], true) && TwoSteps(a, b)
  }

  /** One more call in the log of a run without a gap. */
  lemma {:induction false} Writes(es: seq<Event>, t: Run, name: string, rs: seq<Record>, env: Env)
    returns (es': seq<Event>, t': Run, r: Record)
    requires Digests(env.hash) && Leads(BEGIN, es, t, env) && Decode(t.lines, env.hash) == Decoded(rs, true)
    requires t.now.cursor >= 1 && t.now.cursor > LastStep(rs)
    ensures Leads(BEGIN, es', t', env) && t' == t.(lines := t'.lines)
    ensures Decode(t'.lines, env.hash) == Decoded(rs + [r], true)
    ensures AllClean(es) && OneLine(name) ==> AllClean(es')
    ensures r.body.step == t.now.cursor && r.body.tool == name
  {
    r := AppendsOne(t.lines, t.now.cursor, name, env.hash);
    es', t' := Extend(BEGIN, es, t, Append(Single(t.now.cursor, name), NoFault), env);
  }

  lemma {:induction false} WritesFirst(env: Env) returns (es: seq<Event>, t: Run, a: Record)
    requires Digests(env.hash)
    ensures Leads(BEGIN, es, t, env) && t.now == FIRST.(cursor := 2) && AllClean(es)
    ensures Decode(t.lines, env.hash) == Decoded([a], true) && a.body.step == 1 && a.body.tool == "bash_exec"
  {
    assert Decode([], env.hash) == Decoded([], true);
    assert Leads(BEGIN, [], BEGIN, env);
    es, t, a := Writes([], BEGIN, "bash_exec", [], env);
    assert [] + [a] == [a];
    es, t := Extend(BEGIN, es, t, Advance, env);
  }

  lemma {:induction false} WritesTwo(name: string, env: Env)
    returns (es: seq<Event>, t: Run, a: Record, b: Record)
    requires Digests(env.hash) && name != "record_state" && name != "finish_task"
    ensures Leads(BEGIN, es, t, env) && t.now == FIRST.(cursor := 2) && (OneLine(name) ==> AllClean(es))
    ensures TwoRecords(Decode(t.lines, env.hash), a, b) && a.body.tool == "bash_exec" && b.body.tool == name
  {
    es, t, a := WritesFirst(env);
    es, t, b := Writes(es, t, name, [a], env);
    assert [a] + [b] == [a, b];
  }

  lemma {:induction false} NotAState()
    ensures BROKEN_NAME != "record_state" && BROKEN_NAME != "finish_task"
  {
    assert BROKEN_NAME[0] == 'x';
  }

  lemma {:induction false} RenderedTwo(a: Record, b: Record, hi: int, render: Render)
    requires TwoSteps(a, b) && hi >= 1
    ensures Rendered([a, b], 1, hi, render) == if hi == 1 then [render(a)] else [render(a), render(b)]
  {
    assert [a, b][..1] == [a] && [a][..0] == [];
    assert Rendered([], 1, hi, render) == [];
    assert Rendered([a], 1, hi, render) == [] + [render(a)] == [render(a)];
  }

  function Both(a: Record, b: Record, render: Render): nat { |Join([render(a), render(b)], NL)| }

  /** With room for both lines a source reaches its end. */
  lemma {:induction false} ReachesEnd(d: Decoded, a: Record, b: Record, end: int, render: Render)
    requires TwoRecords(d, a, b) && end >= 1
    ensures var s := SourceOf(d, end, Both(a, b, render) + 1, 1, render); s.through == end
  {
    var max := Both(a, b, render) + 1;
    SourceHolds(d, end, max, 1, render);
    RenderedTwo(a, b, end, render);
    assert [render(a), render(b)][1..] == [render(b)];
    assert !TooLong(d.records, 1, end, render, max);
  }

  /** Nothing new found, and nothing kept. */
  const NOTHING := Material("", [], [], (item: string) => false)

  lemma {:induction false} NothingFound(summary: string)
    ensures Found(summary, NOTHING) == []
  {
    var items := NOTHING.first + Parse(summary).discoveries + NOTHING.generic;
    NoneKept(items, |items|);
  }

  lemma {:induction false} NoneKept(items: seq<string>, n: nat)
    requires n <= |items|
    ensures Merged(items, NOTHING.keep, n) == []
  {
    if n > 0 {
      NoneKept(items, n - 1);
    }
  }

  lemma {:induction false} BrokenIndex(d: Decoded, a: Record, b: Record, v: Views) returns (line: string)
    requires TwoRecords(d, a, b) && b.body.tool == BROKEN_NAME
    ensures Recent(d, 31, v) == [line] && !Orderly(Tier2Shown([line]) + DiscoveriesShown([]), 1)
  {
    assert [a, b][..1] == [a] && [a][..0] == [];
    assert Actions([], 2, 21, v) == [] && Actions([a], 2, 21, v) == [];
    assert Actions([a, b], 2, 21, v) == [Block(2, [Action(b, v)])];
    line := BrokenLine(b, v);
    OneEntryShown(line);
  }

  lemma {:induction false} NoIndex(d: Decoded, a: Record, b: Record, v: Views)
    requires TwoRecords(d, a, b)
    ensures Recent(d, 61, v) == []
  {
    assert [a, b][..1] == [a] && [a][..0] == [];
    assert Actions([], 32, 51, v) == [] && Actions([a], 32, 51, v) == [] && Actions([a, b], 32, 51, v) == [];
  }

  /** The first rollover hands over step 1, and prints that it did. */
  lemma {:induction false} FirstRollover(p: Position, d: Decoded, a: Record, b: Record, env: Env) returns (t: Position)
    requires TwoRecords(d, a, b) && p == FIRST.(cursor := 31)
    ensures t == RolledOver(p, d, 31, Both(a, b, env.render) + 1, NOTHING, env)
    ensures t.summary == Format("", 1, Recent(d, 31, env.views), [])
    ensures t.parts == [[env.render(a)]] && t.cursor == 31 && t.gap.None?
  {
    EmptyIsHonest();
    ReachesEnd(d, a, b, 1, env.render);
    RenderedTwo(a, b, 1, env.render);
    NothingFound("");
    t := RolledOver(p, d, 31, Both(a, b, env.render) + 1, NOTHING, env);
    assert [] + [[env.render(a)]] == [[env.render(a)]];
  }

  /** With the broken name its watermark is lost. */
  lemma {:induction false} BrokenMark(d: Decoded, a: Record, b: Record, v: Views)
    requires TwoRecords(d, a, b) && b.body.tool == BROKEN_NAME
    ensures Mark(Format("", 1, Recent(d, 31, v), [])) == 0
  {
    var line := BrokenIndex(d, a, b, v);
    PrintedMark("", 1, [line], []);
  }

  lemma {:induction false} HandsOver(p: Position, d: Decoded, a: Record, b: Record, render: Render)
    requires TwoRecords(d, a, b) && p.parts == [[render(a)]] && p.gap.None?
    ensures var source := Handed(0, None, d, 61, Both(a, b, render) + 1, render);
      && source.through == 31
      && Extended(p, d, 0, 31, source, render).parts == [[render(a)], [render(a), render(b)]]
  {
    ReachesEnd(d, a, b, 31, render);
    RenderedTwo(a, b, 31, render);
    assert [[render(a)]] + [[render(a), render(b)]] == [[render(a)], [render(a), render(b)]];
  }

  /** The second one hands it over again. */
  lemma {:induction false} SecondRollover(p: Position, d: Decoded, a: Record, b: Record, env: Env) returns (t: Position)
    requires TwoRecords(d, a, b) && Mark(p.summary) == 0 && p.parts == [[env.render(a)]]
    requires p.gap.None? && p.cursor == 61
    ensures t == RolledOver(p, d, 61, Both(a, b, env.render) + 1, NOTHING, env)
    ensures Mark(t.summary) == 31 && t.parts == [[env.render(a)], [env.render(a), env.render(b)]]
  {
    HandsOver(p, d, a, b, env.render);
    NothingFound(p.summary);
    NoIndex(d, a, b, env.views);
    PlainIsOrderly([], []);
    PrintedMark("", 31, [], []);
    t := RolledOver(p, d, 61, Both(a, b, env.render) + 1, NOTHING, env);
    assert t.summary == Format("", 31, [], []);
  }

  lemma {:induction false} ExtendRollover(es: seq<Event>, s: Run, step: int, max: nat, m: Material, env: Env)
    returns (es': seq<Event>, t: Run)
    requires Leads(BEGIN, es, s, env) && step <= s.now.cursor
    ensures Leads(BEGIN, es', t, env) && t.lines == s.lines && t.saved == s.saved
    ensures t.now == RolledOver(s.now, Decode(s.lines, env.hash), step, max, m, env)
    ensures AllClean(es) && Listed(m.first) && Listed(m.generic) ==> AllClean(es')
  {
    es', t := Extend(BEGIN, es, s, Rollover(step, max, m), env);
  }

  lemma {:induction false} RollsOverNow(es: seq<Event>, s: Run, d: Decoded, a: Record, b: Record, env: Env)
    returns (es': seq<Event>, t: Run)
    requires Leads(BEGIN, es, s, env) && s.now == FIRST.(cursor := 31)
    requires d == Decode(s.lines, env.hash) && TwoRecords(d, a, b)
    ensures Leads(BEGIN, es', t, env) && t.lines == s.lines && (AllClean(es) ==> AllClean(es'))
    ensures t.now.parts == [[env.render(a)]] && t.now.cursor == 31 && t.now.gap.None?
    ensures t.now.summary == Format("", 1, Recent(d, 31, env.views), [])
  {
    var p := FirstRollover(s.now, d, a, b, env);
    es', t := ExtendRollover(es, s, 31, Both(a, b, env.render) + 1, NOTHING, env);
  }

  /** The run up to its first rollover. */
  lemma {:induction false} RollsOver(name: string, env: Env)
    returns (es: seq<Event>, s: Run, d: Decoded, a: Record, b: Record)
    requires Digests(env.hash) && name != "record_state" && name != "finish_task"
    ensures Leads(BEGIN, es, s, env) && d == Decode(s.lines, env.hash) && TwoRecords(d, a, b)
    ensures a.body.tool == "bash_exec" && b.body.tool == name && (OneLine(name) ==> AllClean(es))
    ensures s.now.parts == [[env.render(a)]] && s.now.cursor == 31 && s.now.gap.None?
    ensures s.now.summary == Format("", 1, Recent(d, 31, env.views), [])
  {
    es, s, a, b := WritesTwo(name, env);
    d := Decode(s.lines, env.hash);
    es, s := Advances(BEGIN, es, s, 29, env);
    es, s := RollsOverNow(es, s, d, a, b, env);
  }

  /** A run that loses its watermark: a tool name of step 2 holds a section header, so the
      rollover at step 31 prints coverage 1 and none is read back; the rollover at step 61
      hands step 1 over a second time. */
  lemma {:induction false} WatermarkIsLost(env: Env)
    returns (es: seq<Event>, s: Run, more: seq<Event>, t: Run, a: Record, b: Record)
    requires Digests(env.hash)
    ensures Leads(BEGIN, es, s, env) && s.now.parts == [[env.render(a)]] && Mark(s.now.summary) == 0
    ensures Leads(s, more, t, env) && t.now.parts == [[env.render(a)], [env.render(a), env.render(b)]]
    ensures Mark(t.now.summary) == 31 && !Partitions(s, env) && !Partitions(t, env)
  {
    NotAState();
    var d;
    es, s, d, a, b := RollsOver(BROKEN_NAME, env);
    BrokenMark(d, a, b, env.views);
    assert Leads(s, [], s, env);
    more, t := Advances(s, [], s, 30, env);
    var q := SecondRollover(t.now, d, a, b, env);
    more, t := Extend(s, more, t, Rollover(61, Both(a, b, env.render) + 1, NOTHING), env);
    LostPartition(s.now, d.records, a, b, env.render);
    TwicePartition(t.now, d.records, a, b, 31, env.render);
  }

  lemma {:induction false} LostPartition(p: Position, rs: seq<Record>, a: Record, b: Record, render: Render)
    requires rs == [a, b] && p.parts == [[render(a)]] && Mark(p.summary) == 0
    ensures !Covers(p, rs, render)
  {
    RenderedNone(rs, 1, 0, render);
    FlatMore([], [render(a)]);
    assert [] + [[render(a)]] == [[render(a)]];
    assert Flat(p.parts) == [] + [render(a)];
  }

  lemma {:induction false} TwicePartition(p: Position, rs: seq<Record>, a: Record, b: Record, m: nat, render: Render)
    requires rs == [a, b] && p.parts == [[render(a)], [render(a), render(b)]]
    requires TwoSteps(a, b) && m == Mark(p.summary) >= 1
    ensures !Covers(p, rs, render)
  {
    RenderedTwo(a, b, m, render);
    FlatMore([], [render(a)]);
    FlatMore([[render(a)]], [render(a), render(b)]);
    assert [] + [[render(a)]] == [[render(a)]] && [[render(a)]] + [[render(a), render(b)]] == p.parts;
    assert |Flat(p.parts)| == 3;
  }

  // A restart that hands a record over again

  /** Rolling over, saving and restarting, all from the same record. */
  function Resumes(max: nat): Event { Restart(true, max, NOTHING, true, true, false) }

  lemma {:induction false} CleanMark(d: Decoded, through: nat, lo: int, hi: int, v: Views)
    requires NamesOneLine(d.records)
    ensures Mark(Format("", through, MicroIndexOf(d.records, lo, hi, v), [])) == through
  {
    var ls := IndexIsPlain(d.records, lo, hi, v);
    PlainIsOrderly(ls, []);
    PrintedMark("", through, ls, []);
  }

  lemma {:induction false} Trails(p: Position, d: Decoded)
    requires Relied(p, d) != [] && Mark(p.summary) < LastStep(Relied(p, d))
    ensures !UpToDate(p, d)
  {}

  /** What is read again where the watermark trails a log of two steps. */
  lemma {:induction false} RereadTwo(p: Position, d: Decoded, a: Record, b: Record, render: Render)
    returns (max: nat, s: Source)
    requires TwoRecords(d, a, b) && Mark(p.summary) == 1 && p.gap.None?
    ensures max == Both(a, b, render) + 1 && s == Reread(p, d, max, render) && s.through == 2
    ensures !UpToDate(p, d) && RebuiltMark(p, d, max, render) == 2 && LastStep(Relied(p, d)) == 2
    ensures Rereads(p, d, max, render)
  {
    assert Relied(p, d) == [a, b] && LastStep(Relied(p, d)) == 2;
    Trails(p, d);
    ReachesEnd(d, a, b, 2, render);
    RenderedTwo(a, b, 1, render);
    max := Both(a, b, render) + 1;
    s := Reread(p, d, max, render);
  }

  lemma {:induction false} LongerTwo(p: Position, d: Decoded, a: Record, b: Record, s: Source, render: Render)
    requires TwoRecords(d, a, b) && p.parts == [[render(a)]] && s.through == 2
    ensures Longer(p, d, 1, s, render).parts == [[render(a)], [render(a), render(b)]]
  {
    RenderedTwo(a, b, 2, render);
    assert [[render(a)]] + [[render(a), render(b)]] == [[render(a)], [render(a), render(b)]];
  }

  /** The rebuilt record of a run whose watermark trails its log. */
  lemma {:induction false} RebuildsTwo(p: Position, d: Decoded, a: Record, b: Record, env: Env)
    returns (max: nat, t: Position)
    requires TwoRecords(d, a, b) && Mark(p.summary) == 1 && p.parts == [[env.render(a)]] && p.gap.None?
    ensures max == Both(a, b, env.render) + 1 && t == Rebuilt(p, d, max, NOTHING, env)
    ensures t.parts == [[env.render(a)], [env.render(a), env.render(b)]] && Rereads(p, d, max, env.render)
    ensures t.summary == Format("", 2, MicroIndexOf(d.records, 1, 2, env.views), [])
  {
    var s;
    max, s := RereadTwo(p, d, a, b, env.render);
    t := Rebuilt(p, d, max, NOTHING, env);
    LongerTwo(p.(cursor := ResumeCursor(p.cursor, p.gap, 2)), d, a, b, s, env.render);
  }

  /** A run that is saved and restarted. */
  lemma {:induction false} SavesAndResumes(es: seq<Event>, s: Run, max: nat, env: Env)
    returns (es': seq<Event>, t: Run)
    requires Leads(BEGIN, es, s, env)
    ensures Leads(BEGIN, es', t, env) && t.lines == s.lines && (AllClean(es) ==> AllClean(es'))
    ensures t.now == Rebuilt(Snapshot(s.now, true, false), Decode(s.lines, env.hash), max, NOTHING, env)
  {
    es', t := Extend(BEGIN, es, s, Save(true, false), env);
    es', t := Extend(BEGIN, es', t, Resumes(max), env);
  }

  lemma {:induction false} RestartsTwo(es: seq<Event>, s: Run, d: Decoded, a: Record, b: Record, env: Env)
    returns (es': seq<Event>, t: Run)
    requires Leads(BEGIN, es, s, env) && d == Decode(s.lines, env.hash) && TwoRecords(d, a, b) && AllClean(es)
    requires Mark(s.now.summary) == 1 && s.now.parts == [[env.render(a)]] && s.now.gap.None?
    ensures Leads(BEGIN, es', t, env) && t.lines == s.lines && AllClean(es')
    ensures t.now.parts == [[env.render(a)], [env.render(a), env.render(b)]]
    ensures t.now.summary == Format("", 2, MicroIndexOf(d.records, 1, 2, env.views), [])
  {
    var p := Snapshot(s.now, true, false);
    var max, rebuilt := RebuildsTwo(p, d, a, b, env);
    es', t := SavesAndResumes(es, s, max, env);
  }

  lemma {:induction false} NamesOfTwo(d: Decoded, a: Record, b: Record)
    requires TwoRecords(d, a, b) && a.body.tool == b.body.tool == "bash_exec"
    ensures NamesOneLine(d.records) && OneLine("bash_exec")
  {}

  lemma {:induction false} RecentMark(d: Decoded, v: Views)
    requires NamesOneLine(d.records)
    ensures Mark(Format("", 1, Recent(d, 31, v), [])) == 1
  {
    CleanMark(d, 1, 2, 21, v);
  }

  lemma {:induction false} RollsOverClean(env: Env)
    returns (es: seq<Event>, s: Run, d: Decoded, a: Record, b: Record)
    requires Digests(env.hash)
    ensures Leads(BEGIN, es, s, env) && d == Decode(s.lines, env.hash) && TwoRecords(d, a, b) && AllClean(es)
    ensures s.now.parts == [[env.render(a)]] && s.now.gap.None? && Mark(s.now.summary) == 1
    ensures NamesOneLine(d.records)
  {
    es, s, d, a, b := RollsOver("bash_exec", env);
    NamesOfTwo(d, a, b);
    RecentMark(d, env.views);
  }

  lemma {:induction false} RunsToRestart(env: Env)
    returns (es: seq<Event>, t: Run, d: Decoded, a: Record, b: Record)
    requires Digests(env.hash)
    ensures Leads(BEGIN, es, t, env) && AllClean(es) && d == Decode(t.lines, env.hash) && TwoRecords(d, a, b)
    ensures t.now.parts == [[env.render(a)], [env.render(a), env.render(b)]] && Mark(t.now.summary) == 2
  {
    var s;
    es, s, d, a, b := RollsOverClean(env);
    es, t := RestartsTwo(es, s, d, a, b, env);
    CleanMark(d, 2, 1, 2, env.views);
  }

  /** A plain rollover, a save and a restart: the watermark trails the log, the record is
      rebuilt from the first step on, and step 1 is handed over a second time. */
  lemma {:induction false} RestartHandsOverAgain(env: Env) returns (es: seq<Event>, t: Run, a: Record, b: Record)
    requires Digests(env.hash)
    ensures Leads(BEGIN, es, t, env) && AllClean(es) && Complete(t, env)
    ensures t.now.parts == [[env.render(a)], [env.render(a), env.render(b)]] && Mark(t.now.summary) == 2
    ensures !Partitions(t, env)
  {
    var d;
    es, t, d, a, b := RunsToRestart(env);
    TwicePartition(t.now, d.records, a, b, 2, env.render);
    SingleLinesKeepWatermark(es, t, env);
  }
}
