/** The watermark over a run. It is kept nowhere but in the text of the summary: a rollover
    prints it, and the next one reads it back. */
module WatermarkRuns {
  import opened Text
  import opened TieredSummary
  import opened SummaryWatermark
  import opened SummaryRewrites
  import opened SummaryCoverage
  import opened Trajectory
  import opened TrajectoryIntegrity
  import opened Watermark
  import opened MicroIndex

  // States and steps

  /** How ids, source lines and previews are made of a record. */
  datatype Env = Env(hash: Hash, render: Render, views: Views)

  /** What goes into a printing beside the trajectory: the procedure, the entries found in
      front of and behind the earlier discoveries, and which entries may be listed. */
  datatype Material = Material(tier3: string, first: seq<string>, generic: seq<string>, keep: string -> bool)

  /** The steps a source was asked for. */
  datatype Span = Span(lo: int, hi: int)

  /** Where a loop stands: its step, the first step whose group is missing, its summary, and
      as history every source that went into this summary, with its steps and its lines. */
  datatype Position = Position(cursor: int, gap: Option<int>, summary: string,
                               sources: seq<string>, spans: seq<Span>, parts: seq<seq<string>>)

  /** The log, the running loop and the durable record. */
  datatype Run = Run(lines: seq<Line>, now: Position, saved: Option<Position>)

  datatype Event =
    | Advance
    | Append(group: Group, fault: Fault)
    | Rollover(step: int, max: nat, material: Material)
    | Flushing(flush: Flush)
    | Compacting(tier2: nat, chars: nat, discoveries: nat)
    | Save(ahead: bool, reserved: bool)
    | Restart(readable: bool, max: nat, material: Material, ok: bool, reread: bool, shorten: bool)

  const FIRST := Position(1, None, "", [], [], [])
  const BEGIN := Run([], FIRST, None)

  /** The source a rollover at the given step hands over, behind watermark m. */
  function Handed(m: nat, gap: Option<int>, d: Decoded, step: int, max: nat, render: Render): Source {
    if m + 1 > Tier3End(step, gap) then Source("", m) else SourceOf(d, Tier3End(step, gap), max, m + 1, render)
  }

  function Recent(d: Decoded, step: int, v: Views): seq<string> {
    MicroIndexOf(d.records, Max(1, step - 29), step - 10, v)
  }

  function Found(summary: string, material: Material): seq<string> {
    var items := material.first + Parse(summary).discoveries + material.generic;
    Merged(items, material.keep, |items|)
  }

  /** The watermark a rollover prints. */
  function Reached(m: nat, gap: Option<int>, d: Decoded, step: int, max: nat, render: Render): int {
    Max(m, Handed(m, gap, d, step, max, render).through)
  }

  /** rollover_agent_context, as to the summary. */
  function RolledOver(p: Position, d: Decoded, step: int, max: nat, material: Material, env: Env): Position {
    var m := Mark(p.summary);
    var source := Handed(m, p.gap, d, step, max, env.render);
    var t2, found := Recent(d, step, env.views), Found(p.summary, material);
    Extended(p, d, m, Tier3End(step, p.gap), source, env.render)
      .(summary := Format(material.tier3, Max(m, source.through), t2, found))
  }

  /** The history with one more source. */
  function Longer(p: Position, d: Decoded, lo: int, source: Source, render: Render): Position {
    p.(sources := p.sources + [source.text], spans := p.spans + [Span(lo, source.through)],
       parts := p.parts + [Rendered(d.records, lo, source.through, render)])
  }

  /** One more source behind watermark m, if there was anything to hand over. */
  function Extended(p: Position, d: Decoded, m: nat, end: int, source: Source, render: Render): Position {
    if m + 1 > end then p else Longer(p, d, m + 1, source, render)
  }

  /** The records a resumed run relies on. */
  function Relied(p: Position, d: Decoded): seq<Record> {
    if p.gap.Some? then KeepUpTo(d.records, p.gap.value - 1) else d.records
  }

  /** The summary of the record need not be made anew. */
  predicate UpToDate(p: Position, d: Decoded) {
    var q := Parse(p.summary);
    || Relied(p, d) == []
    || (p.summary != "" && q.through >= LastStep(Relied(p, d)) && (q.tier3 != "" || q.tier2 != []))
  }

  /** The source a rebuilt record hands over, from the first step on. */
  function Reread(p: Position, d: Decoded, max: nat, render: Render): Source {
    SourceOf(d, LastStep(Relied(p, d)), max, 1, render)
  }

  /** The watermark it prints. */
  function RebuiltMark(p: Position, d: Decoded, max: nat, render: Render): int {
    Max(Reread(p, d, max, render).through, Mark(p.summary))
  }

  function RebuiltIndex(d: Decoded, last: int, v: Views): seq<string> {
    MicroIndexOf(d.records, Max(1, last - 19), last, v)
  }

  /** rebuild_legacy_resume_state, as to step and summary: unless it is up to date, the
      summary gets a source from the first step on behind the procedure it holds. */
  function Rebuilt(p: Position, d: Decoded, max: nat, material: Material, env: Env): Position {
    var last := LastStep(Relied(p, d));
    var at := p.(cursor := ResumeCursor(p.cursor, p.gap, last));
    if UpToDate(p, d) then at
    else
      var t2 := RebuiltIndex(d, last, env.views);
      Longer(at, d, 1, Reread(p, d, max, env.render), env.render)
        .(summary := Format(material.tier3, RebuiltMark(p, d, max, env.render), t2, material.generic))
  }

  function ReadLog(lines: seq<Line>, readable: bool, h: Hash): Decoded {
    if readable then Decode(lines, h) else Decoded([], false)
  }

  function Shortened(p: Position, shorten: bool): Position {
    if shorten then p.(summary := ResumeSummary(p.summary)) else p
  }

  /** The loop starts from its durable record, rebuilt; if the rebuilt record cannot be
      saved or read back, from the record as it was. */
  function Restarted(s: Run, e: Event, env: Env): Run
    requires e.Restart?
  {
    if s.saved.None? then s.(now := FIRST)
    else
      var r := s.saved.value;
      var rebuilt := Rebuilt(r, ReadLog(s.lines, e.readable, env.hash), e.max, e.material, env);
      Run(s.lines, Shortened(if e.ok && e.reread then rebuilt else r, e.shorten), Some(if e.ok then rebuilt else r))
  }

  function Snapshot(p: Position, ahead: bool, reserved: bool): Position {
    p.(cursor := p.cursor + if ahead then 1 else 0, gap := if reserved then LowerGap(p.gap, p.cursor) else p.gap)
  }

  /** The group appended is the current step's; a rollover belongs to a step reached. */
  predicate Allowed(s: Run, e: Event) {
    match e
    case Append(g, _) => g.step == s.now.cursor
    case Rollover(step, _, _) => step <= s.now.cursor
    case _ => true
  }

  function Next(s: Run, e: Event, env: Env): Run {
    match e
    case Advance => s.(now := s.now.(cursor := s.now.cursor + 1))
    case Append(g, fault) =>
      var (after, outcome) := AppendTo(s.lines, g, env.hash, fault);
      s.(lines := after,
         now := s.now.(gap := if outcome.Appended? then s.now.gap else LowerGap(s.now.gap, g.step)))
    case Rollover(step, max, material) =>
      s.(now := RolledOver(s.now, Decode(s.lines, env.hash), step, max, material, env))
    case Flushing(f) => s.(now := s.now.(summary := Flushed(s.now.summary, f)))
    case Compacting(tier2, chars, discoveries) =>
      s.(now := s.now.(summary := Compacted(s.now.summary, tier2, chars, discoveries)))
    case Save(ahead, reserved) => s.(saved := Some(Snapshot(s.now, ahead, reserved)))
    case Restart(_, _, _, _, _, _) => Restarted(s, e, env)
  }

  // What is kept

  function Flat(parts: seq<seq<string>>): seq<string> {
    if parts == [] then [] else Flat(parts[..|parts| - 1]) + parts[|parts| - 1]
  }

  /** The sources partition the log up to watermark m: their lines, one after the other, are
      the rendered eligible records of steps 1 .. m. */
  ghost predicate CoversTo(p: Position, rs: seq<Record>, render: Render, m: nat) {
    && |p.sources| == |p.parts|
    && (forall i {:trigger p.sources[i]} :: 0 <= i < |p.sources| ==> p.sources[i] == Join(p.parts[i], NL))
    && m < p.cursor && (p.gap.Some? ==> m < p.gap.value)
    && Flat(p.parts) == Rendered(rs, 1, m, render)
  }

  /** They do so up to the watermark of the summary. */
  ghost predicate Covers(p: Position, rs: seq<Record>, render: Render) {
    CoversTo(p, rs, render, Mark(p.summary))
  }

  /** The printed watermark can be read back. */
  predicate ReadsBack(through: int, t2: seq<string>, d: seq<string>) {
    through <= 0 || Orderly(Tier2Shown(t2) + DiscoveriesShown(d), 1)
  }

  predicate RolloverReadsBack(p: Position, d: Decoded, step: int, max: nat, material: Material, env: Env) {
    ReadsBack(Reached(Mark(p.summary), p.gap, d, step, max, env.render), Recent(d, step, env.views),
              Found(p.summary, material))
  }

  predicate RemadeReadsBack(p: Position, d: Decoded, max: nat, material: Material, env: Env) {
    ReadsBack(RebuiltMark(p, d, max, env.render), RebuiltIndex(d, LastStep(Relied(p, d)), env.views), material.generic)
  }

  predicate RebuiltReadsBack(p: Position, d: Decoded, max: nat, material: Material, env: Env) {
    UpToDate(p, d) || RemadeReadsBack(p, d, max, material, env)
  }

  /** The source of a rebuilt record holds a record that was handed over before. */
  predicate Rereads(p: Position, d: Decoded, max: nat, render: Render) {
    !UpToDate(p, d)
    && Rendered(d.records, 1, Min(Mark(p.summary), Reread(p, d, max, render).through), render) != []
  }

  /** The summary this step prints, if any, can be read back. */
  predicate Kept(s: Run, e: Event, env: Env) {
    match e
    case Rollover(step, max, material) => RolloverReadsBack(s.now, Decode(s.lines, env.hash), step, max, material, env)
    case Restart(readable, max, material, ok, _, _) =>
      s.saved.Some? && ok ==>
        RebuiltReadsBack(s.saved.value, ReadLog(s.lines, readable, env.hash), max, material, env)
    case _ => true
  }

  /** This step restarts from a record that was rebuilt, and so hands a record over again. */
  predicate Repeats(s: Run, e: Event, env: Env) {
    && e.Restart? && s.saved.Some? && e.ok
    && Rereads(s.saved.value, ReadLog(s.lines, e.readable, env.hash), e.max, env.render)
  }

  // One rollover

  lemma {:induction false} FlatMore(parts: seq<seq<string>>, part: seq<string>)
    ensures Flat(parts + [part]) == Flat(parts) + part
  {
    assert (parts + [part])[..|parts|] == parts;
  }

  /** A source behind the watermark extends the partition to where it reaches. */
  lemma {:induction false} SourceExtends(p: Position, d: Decoded, m: nat, end: int, max: nat, render: Render)
    returns (s: Source)
    requires Ascending(d.records) && CoversTo(p, d.records, render, m) && m + 1 <= end
    requires end < p.cursor && (p.gap.Some? ==> end < p.gap.value)
    ensures s == SourceOf(d, end, max, m + 1, render) && m <= s.through <= end
    ensures CoversTo(Extended(p, d, m, end, s, render), d.records, render, s.through)
  {
    s := SourceOf(d, end, max, m + 1, render);
    SourceHolds(d, end, max, m + 1, render);
    RenderedRanges(d.records, 1, m, s.through, render);
    FlatMore(p.parts, Rendered(d.records, m + 1, s.through, render));
  }

  /** What a rollover hands over extends the partition to the watermark it prints. */
  lemma {:induction false} HandedExtends(p: Position, d: Decoded, m: nat, step: int, max: nat, render: Render)
    requires Ascending(d.records) && CoversTo(p, d.records, render, m) && step <= p.cursor
    ensures var source, n := Handed(m, p.gap, d, step, max, render), Reached(m, p.gap, d, step, max, render);
      m <= n && CoversTo(Extended(p, d, m, Tier3End(step, p.gap), source, render), d.records, render, n)
  {
    if m + 1 <= Tier3End(step, p.gap) {
      var s := SourceExtends(p, d, m, Tier3End(step, p.gap), max, render);
    }
  }

  lemma {:induction false} OtherSummary(p: Position, q: Position, rs: seq<Record>, render: Render, m: nat)
    requires CoversTo(p, rs, render, m) && q == p.(summary := q.summary)
    ensures CoversTo(q, rs, render, m)
  {}

  /** The same history covers two watermarks exactly if no record lies between them. */
  lemma {:induction false} CoversBoth(p: Position, rs: seq<Record>, render: Render, n: nat)
    requires CoversTo(p, rs, render, n)
    ensures CoversTo(p, rs, render, 0) <==> Rendered(rs, 1, n, render) == []
  {
    RenderedNone(rs, 1, 0, render);
  }

  /** A rollover keeps the partition and does not let the watermark fall exactly if the
      summary it prints reads back; otherwise the watermark is lost, which does no harm only
      if there was none and no record to hand over. */
  lemma {:induction false} RolloverKeepsIff(p: Position, d: Decoded, step: int, max: nat, material: Material, env: Env)
    requires Ascending(d.records) && Covers(p, d.records, env.render) && step <= p.cursor
    ensures var t := RolledOver(p, d, step, max, material, env);
      var n := Reached(Mark(p.summary), p.gap, d, step, max, env.render);
      && (RolloverReadsBack(p, d, step, max, material, env) ==> Mark(t.summary) == n)
      && (!RolloverReadsBack(p, d, step, max, material, env) ==> n > 0 && Mark(t.summary) == 0)
      && (Covers(t, d.records, env.render) && Mark(p.summary) <= Mark(t.summary)
          <==> RolloverReadsBack(p, d, step, max, material, env)
               || (Mark(p.summary) == 0 && Rendered(d.records, 1, n, env.render) == []))
  {
    var m, t := Mark(p.summary), RolledOver(p, d, step, max, material, env);
    var n := Reached(m, p.gap, d, step, max, env.render);
    var t2, found := Recent(d, step, env.views), Found(p.summary, material);
    HandedExtends(p, d, m, step, max, env.render);
    OtherSummary(Extended(p, d, m, Tier3End(step, p.gap), Handed(m, p.gap, d, step, max, env.render), env.render), t,
                 d.records, env.render, n);
    PrintedMark(material.tier3, n, t2, found);
    assert t.summary == Format(material.tier3, n, t2, found);
    CoversBoth(t, d.records, env.render, n);
  }

  // One rebuilt record

  lemma {:induction false} CursorBehind(p: Position, m: nat, last: int)
    requires m < p.cursor && (p.gap.Some? ==> m < p.gap.value && last < p.gap.value)
    ensures m < ResumeCursor(p.cursor, p.gap, last) && last < ResumeCursor(p.cursor, p.gap, last)
  {}

  lemma {:induction false} KeptLast(rs: seq<Record>, s: int)
    requires Ascending(rs) && s >= 0
    ensures LastStep(KeepUpTo(rs, s)) <= s
    ensures KeepUpTo(rs, s) == [] || LastStep(KeepUpTo(rs, s)) <= LastStep(rs)
  {
    if rs != [] && rs[|rs| - 1].body.step > s {
      var before := rs[..|rs| - 1];
      AscendingPrefix(rs);
      KeptLast(before, s);
      assert before != [] ==> before[|before| - 1].body.step <= rs[|rs| - 1].body.step;
    }
  }

  lemma {:induction false} ReliedLast(p: Position, d: Decoded)
    requires Ascending(d.records) && (p.gap.Some? ==> p.gap.value >= 1)
    ensures LastStep(Relied(p, d)) <= LastStep(d.records) || Relied(p, d) == []
    ensures p.gap.Some? ==> LastStep(Relied(p, d)) < p.gap.value
  {
    if p.gap.Some? {
      KeptLast(d.records, p.gap.value - 1);
    }
  }

  /** What the source of a rebuilt record is, and where the loop goes on. */
  lemma {:induction false} RereadHolds(p: Position, d: Decoded, m: nat, max: nat, render: Render)
    returns (s: Source, n: nat, cursor: int)
    requires Ascending(d.records) && m == Mark(p.summary) && m < p.cursor && (p.gap.Some? ==> m < p.gap.value)
    ensures s == Reread(p, d, max, render) && n == Max(s.through, m) == RebuiltMark(p, d, max, render)
    ensures 0 <= s.through <= Max(0, LastStep(Relied(p, d)))
        && cursor == ResumeCursor(p.cursor, p.gap, LastStep(Relied(p, d)))
    ensures n < cursor && (p.gap.Some? ==> n < p.gap.value)
    ensures n == m || n <= LastStep(d.records)
    ensures s.text == Join(Rendered(d.records, 1, s.through, render), NL)
  {
    var last := LastStep(Relied(p, d));
    ReliedLast(p, d);
    CursorBehind(p, m, last);
    SourceHolds(d, last, max, 1, render);
    s := Reread(p, d, max, render);
    n, cursor := Max(s.through, m), ResumeCursor(p.cursor, p.gap, last);
  }

  lemma {:induction false} Emptied(a: seq<string>, b: seq<string>)
    ensures a + b == [] <==> a == [] && b == []
    ensures a + b == b <==> a == []
    ensures a + b == a <==> b == []
  {
    if a + b == b {
      assert |a| == 0;
    }
    if a + b == a {
      assert |b| == 0;
    }
  }

  /** A history up to m with the steps 1 .. t behind it is one up to the larger of the two
      exactly if no record lies at or below the smaller. */
  lemma {:induction false} TwiceIff(rs: seq<Record>, m: nat, t: nat, render: Render)
    requires Ascending(rs)
    ensures Rendered(rs, 1, m, render) + Rendered(rs, 1, t, render) == Rendered(rs, 1, Max(m, t), render)
            <==> Rendered(rs, 1, Min(m, t), render) == []
  {
    var a, b := Rendered(rs, 1, m, render), Rendered(rs, 1, t, render);
    if t <= m {
      Emptied(a, b);
    } else {
      RenderedRanges(rs, 1, m, t, render);
      var c := Rendered(rs, m + 1, t, render);
      Emptied(a, c);
      Emptied(a, a + c);
    }
  }

  lemma {:induction false} NoneTwice(rs: seq<Record>, m: nat, t: nat, render: Render)
    requires Ascending(rs)
    ensures Rendered(rs, 1, m, render) + Rendered(rs, 1, t, render) == [] <==> Rendered(rs, 1, Max(m, t), render) == []
  {
    Emptied(Rendered(rs, 1, m, render), Rendered(rs, 1, t, render));
    RenderedRanges(rs, 1, Min(m, t), Max(m, t), render);
    Emptied(Rendered(rs, 1, Min(m, t), render), Rendered(rs, Min(m, t) + 1, Max(m, t), render));
  }

  lemma {:induction false} JoinsMore(p: Position, q: Position, d: Decoded, lo: int, s: Source, render: Render)
    requires |p.sources| == |p.parts| && q == Longer(p, d, lo, s, render)
    requires forall i {:trigger p.sources[i]} :: 0 <= i < |p.sources| ==> p.sources[i] == Join(p.parts[i], NL)
    requires s.text == Join(Rendered(d.records, lo, s.through, render), NL)
    ensures |q.sources| == |q.parts|
    ensures forall i {:trigger q.sources[i]} :: 0 <= i < |q.sources| ==> q.sources[i] == Join(q.parts[i], NL)
  {}

  /** A rebuilt record whose summary is made anew... */
  lemma {:induction false} RebuiltAnewIff(p: Position, d: Decoded, max: nat, material: Material, env: Env)
    requires Ascending(d.records) && Covers(p, d.records, env.render) && !UpToDate(p, d)
    ensures var t, n := Rebuilt(p, d, max, material, env), RebuiltMark(p, d, max, env.render);
      && Mark(t.summary) == (if RebuiltReadsBack(p, d, max, material, env) then n else 0)
      && (Covers(t, d.records, env.render) && Mark(p.summary) <= Mark(t.summary)
          <==> (RebuiltReadsBack(p, d, max, material, env) && !Rereads(p, d, max, env.render))
               || (Mark(p.summary) == 0 && Rendered(d.records, 1, n, env.render) == []))
  {
    var rs, m, t := d.records, Mark(p.summary), Rebuilt(p, d, max, material, env);
    var s, n, cursor := RereadHolds(p, d, m, max, env.render);
    var at := p.(cursor := cursor);
    JoinsMore(at, Longer(at, d, 1, s, env.render), d, 1, s, env.render);
    FlatMore(p.parts, Rendered(rs, 1, s.through, env.render));
    TwiceIff(rs, m, s.through, env.render);
    NoneTwice(rs, m, s.through, env.render);
    RenderedNone(rs, 1, 0, env.render);
    PrintedMark(material.tier3, n, RebuiltIndex(d, LastStep(Relied(p, d)), env.views), material.generic);
    assert t.summary == Format(material.tier3, n, RebuiltIndex(d, LastStep(Relied(p, d)), env.views), material.generic);
    assert Flat(t.parts) == Rendered(rs, 1, m, env.render) + Rendered(rs, 1, s.through, env.render);
  }

  /** A rebuilt record keeps the partition and does not let the watermark fall exactly if
      its summary is up to date, or reads back and no record is handed over again, or there
      was no watermark and no record to hand over. */
  lemma {:induction false} RebuiltKeepsIff(p: Position, d: Decoded, max: nat, material: Material, env: Env)
    requires Ascending(d.records) && Covers(p, d.records, env.render)
    ensures var t := Rebuilt(p, d, max, material, env);
      Covers(t, d.records, env.render) && Mark(p.summary) <= Mark(t.summary)
      <==> (RebuiltReadsBack(p, d, max, material, env) && !Rereads(p, d, max, env.render))
           || (Mark(p.summary) == 0 && Rendered(d.records, 1, RebuiltMark(p, d, max, env.render), env.render) == [])
  {
    if UpToDate(p, d) {
      ReliedLast(p, d);
      CursorBehind(p, Mark(p.summary), LastStep(Relied(p, d)));
    } else {
      RebuiltAnewIff(p, d, max, material, env);
    }
  }

  // Every record at least once

  ghost predicate InSpan(spans: seq<Span>, step: int) {
    exists i {:trigger spans[i]} :: 0 <= i < |spans| && spans[i].lo <= step <= spans[i].hi
  }

  /** Source i is what the log renders for its steps, none of which lies above m. */
  ghost predicate SourceAt(p: Position, rs: seq<Record>, render: Render, m: nat, i: nat)
    requires i < |p.sources| == |p.spans| == |p.parts|
  {
    && p.sources[i] == Join(p.parts[i], NL) && p.spans[i].hi <= m
    && p.parts[i] == Rendered(rs, p.spans[i].lo, p.spans[i].hi, render)
  }

  /** The sources hold every step up to m, and m is below step and gap. */
  ghost predicate HandsTo(p: Position, rs: seq<Record>, render: Render, m: nat) {
    && |p.sources| == |p.spans| == |p.parts|
    && (forall i: nat {:trigger SourceAt(p, rs, render, m, i)} :: i < |p.sources| ==> SourceAt(p, rs, render, m, i))
    && (forall step {:trigger InSpan(p.spans, step)} :: 1 <= step <= m ==> InSpan(p.spans, step))
    && m < p.cursor && (p.gap.Some? ==> m < p.gap.value)
  }

  /** A source that continues or repeats the history completes it to where it reaches. */
  lemma {:induction false} LongerHands(p: Position, d: Decoded, m: nat, lo: int, s: Source, n: nat, render: Render)
    requires HandsTo(p, d.records, render, m) && lo <= m + 1 && n == Max(m, s.through)
    requires s.text == Join(Rendered(d.records, lo, s.through, render), NL)
    requires n < p.cursor && (p.gap.Some? ==> n < p.gap.value)
    ensures HandsTo(Longer(p, d, lo, s, render), d.records, render, n)
  {
    var q := Longer(p, d, lo, s, render);
    forall i: nat | i < |q.sources|
      ensures SourceAt(q, d.records, render, n, i)
    {
      if i < |p.sources| {
        assert SourceAt(p, d.records, render, m, i);
      }
    }
    forall step | 1 <= step <= n
      ensures InSpan(q.spans, step)
    {
      if step <= m {
        assert InSpan(p.spans, step);
        var i :| 0 <= i < |p.spans| && p.spans[i].lo <= step <= p.spans[i].hi;
        assert q.spans[i] == p.spans[i];
      } else {
        assert q.spans[|p.spans|] == Span(lo, s.through);
      }
    }
  }

  /** Other places and summaries leave the history as it is. */
  lemma {:induction false} SameHistory(p: Position, q: Position, rs: seq<Record>, render: Render, m: nat)
    requires HandsTo(p, rs, render, m) && q.sources == p.sources && q.spans == p.spans && q.parts == p.parts
    requires m < q.cursor && (q.gap.Some? ==> m < q.gap.value)
    ensures HandsTo(q, rs, render, m)
  {
    forall i: nat | i < |q.sources|
      ensures SourceAt(q, rs, render, m, i)
    {
      assert SourceAt(p, rs, render, m, i);
    }
  }

  /** Later records leave it as it is. */
  lemma {:induction false} MoreRecords(p: Position, rs: seq<Record>, more: seq<Record>, render: Render, m: nat)
    requires HandsTo(p, rs, render, m) && forall k {:trigger more[k]} :: 0 <= k < |more| ==> more[k].body.step > m
    ensures HandsTo(p, rs + more, render, m)
    ensures Rendered(rs + more, 1, m, render) == Rendered(rs, 1, m, render)
  {
    RenderedConcat(rs, more, 1, m, render);
    forall i: nat | i < |p.sources|
      ensures SourceAt(p, rs + more, render, m, i)
    {
      assert SourceAt(p, rs, render, m, i);
      RenderedConcat(rs, more, p.spans[i].lo, p.spans[i].hi, render);
    }
  }

  /** What a rollover hands over completes the history to the watermark it prints. */
  lemma {:induction false} RolloverHands(p: Position, d: Decoded, m: nat, step: int, max: nat, render: Render)
    requires Ascending(d.records) && HandsTo(p, d.records, render, m) && step <= p.cursor
    ensures var source, n := Handed(m, p.gap, d, step, max, render), Reached(m, p.gap, d, step, max, render);
      m <= n && HandsTo(Extended(p, d, m, Tier3End(step, p.gap), source, render), d.records, render, n)
  {
    var end := Tier3End(step, p.gap);
    if m + 1 <= end {
      SourceHolds(d, end, max, m + 1, render);
      var s := SourceOf(d, end, max, m + 1, render);
      LongerHands(p, d, m, m + 1, s, s.through, render);
    }
  }

  // How far a printing reaches

  /** A rollover covers every step thirty back and in front of the gap that the log can be
      relied on for, as far as its bound allows; and none behind. */
  lemma {:induction false} RolloverReaches(p: Position, d: Decoded, step: int, max: nat, env: Env, hi: int)
    requires Ascending(d.records) && max > 0
    ensures var m := Mark(p.summary);
      var n := Reached(m, p.gap, d, step, max, env.render);
      && (n > m ==> n <= step - 30 && (p.gap.Some? ==> n < p.gap.value) && Reliable(d, n))
      && (n < hi <= step - 30 && (p.gap.Some? ==> hi < p.gap.value) && Reliable(d, hi) ==>
            TooLong(d.records, m + 1, hi, env.render, max))
  {
    HandedReaches(Mark(p.summary), p.gap, d, step, max, env.render, hi);
  }

  lemma {:induction false} HandedReaches(m: nat, gap: Option<int>, d: Decoded, step: int, max: nat, render: Render,
                                         hi: int)
    requires Ascending(d.records) && max > 0
    ensures var n := Reached(m, gap, d, step, max, render);
      && (n > m ==> n <= step - 30 && (gap.Some? ==> n < gap.value) && Reliable(d, n))
      && (n < hi <= step - 30 && (gap.Some? ==> hi < gap.value) && Reliable(d, hi) ==>
            TooLong(d.records, m + 1, hi, render, max))
  {
    SourceHolds(d, Tier3End(step, gap), max, m + 1, render);
  }

  /** The source of a rebuilt record covers every trusted step, as far as its bound allows. */
  lemma {:induction false} RereadReaches(p: Position, d: Decoded, max: nat, render: Render, step: int)
    requires Ascending(d.records) && max > 0 && Relied(p, d) != [] && 1 <= step <= LastStep(Relied(p, d))
    ensures step <= Reread(p, d, max, render).through || TooLong(d.records, 1, LastStep(Relied(p, d)), render, max)
  {
    SourceHolds(d, LastStep(Relied(p, d)), max, 1, render);
    ReliableLast(p, d);
  }

  lemma {:induction false} RebuiltPrints(p: Position, d: Decoded, max: nat, material: Material, env: Env)
    requires RebuiltReadsBack(p, d, max, material, env)
    ensures Mark(Rebuilt(p, d, max, material, env).summary)
            == if UpToDate(p, d) then Mark(p.summary) else Positive(RebuiltMark(p, d, max, env.render))
  {
    var last := LastStep(Relied(p, d));
    PrintedMark(material.tier3, RebuiltMark(p, d, max, env.render), RebuiltIndex(d, last, env.views), material.generic);
  }

  lemma {:induction false} UpToDateReaches(p: Position, d: Decoded)
    requires UpToDate(p, d) && Relied(p, d) != []
    ensures Mark(p.summary) >= LastStep(Relied(p, d))
  {}

  /** And so does its summary. */
  lemma {:induction false} RebuiltReaches(p: Position, d: Decoded, max: nat, material: Material, env: Env, step: int)
    requires Ascending(d.records) && max > 0 && RebuiltReadsBack(p, d, max, material, env)
    requires Relied(p, d) != [] && 1 <= step <= LastStep(Relied(p, d))
    ensures step <= Mark(Rebuilt(p, d, max, material, env).summary)
            || TooLong(d.records, 1, LastStep(Relied(p, d)), env.render, max)
  {
    RebuiltPrints(p, d, max, material, env);
    if UpToDate(p, d) {
      UpToDateReaches(p, d);
    } else {
      RereadReaches(p, d, max, env.render, step);
    }
  }

  lemma {:induction false} KeptAscends(rs: seq<Record>, s: int)
    requires Ascending(rs)
    ensures Ascending(KeepUpTo(rs, s)) && forall k {:trigger KeepUpTo(rs, s)[k]} :: 0 <= k < |KeepUpTo(rs, s)| ==>
      exists j :: 0 <= j < |rs| && rs[j] == KeepUpTo(rs, s)[k]
  {
    if rs != [] {
      AscendingPrefix(rs);
      KeptAscends(rs[..|rs| - 1], s);
      var kept := KeepUpTo(rs[..|rs| - 1], s);
      forall k | 0 <= k < |kept|
        ensures exists j :: 0 <= j < |rs| && rs[j] == kept[k]
        ensures kept[k].body.step <= rs[|rs| - 1].body.step
      {
        var j :| 0 <= j < |rs| - 1 && rs[..|rs| - 1][j] == kept[k];
        assert rs[j] == kept[k];
      }
    }
  }

  lemma {:induction false} ReliedAscends(p: Position, d: Decoded)
    requires Ascending(d.records)
    ensures Ascending(Relied(p, d))
  {
    if p.gap.Some? {
      KeptAscends(d.records, p.gap.value - 1);
    }
  }

  lemma {:induction false} ReliableLast(p: Position, d: Decoded)
    requires Ascending(d.records) && Relied(p, d) != []
    ensures Reliable(d, LastStep(Relied(p, d)))
  {
    if p.gap.Some? {
      KeptAscends(d.records, p.gap.value - 1);
      var rs := Relied(p, d);
      var j :| 0 <= j < |d.records| && d.records[j] == rs[|rs| - 1];
    }
  }

  /** An earlier discovery that may still be listed is listed again, unless the list is full. */
  lemma {:induction false} FoundKeeps(summary: string, material: Material, item: string)
    requires material.keep(item) && item in material.first + Parse(summary).discoveries + material.generic
    ensures item in Found(summary, material) || |Found(summary, material)| == DISCOVERY_LINES
  {
    var items := material.first + Parse(summary).discoveries + material.generic;
    var k :| 0 <= k < |items| && items[k] == item;
    MergedKeeps(items, material.keep, |items|, k);
  }

  /** Nothing else is listed, and nothing twice. */
  lemma {:induction false} FoundHolds(summary: string, material: Material, i: nat)
    requires i < |Found(summary, material)|
    ensures var found := Found(summary, material);
      && |found| <= DISCOVERY_LINES && material.keep(found[i])
      && (found[i] in material.first || found[i] in Parse(summary).discoveries || found[i] in material.generic)
      && (forall j :: i < j < |found| ==> found[j] != found[i])
  {
    var items := material.first + Parse(summary).discoveries + material.generic;
    MergedHolds(items, material.keep, |items|);
    assert Found(summary, material)[i] in items;
  }

  // Every step

  /** The history is complete up to the watermark, and the summary brings up no other. */
  ghost predicate Held(p: Position, rs: seq<Record>, render: Render) {
    HandsTo(p, rs, render, Mark(p.summary)) && Honest(p.summary)
  }

  /** Nothing appended from now on lies within the watermark: it is below the loop's step or
      within the log. */
  ghost predicate Behind(p: Position, rs: seq<Record>, cursor: int) {
    Mark(p.summary) < cursor || Mark(p.summary) <= LastStep(rs)
  }

  /** The running loop and its durable record have handed over every record up to their
      watermarks. */
  ghost predicate Complete(s: Run, env: Env) {
    var rs := Decode(s.lines, env.hash).records;
    && Held(s.now, rs, env.render)
    && (s.saved.Some? ==> Held(s.saved.value, rs, env.render) && Behind(s.saved.value, rs, s.now.cursor))
  }

  /** And exactly once, in order. */
  ghost predicate Partitions(s: Run, env: Env) {
    var rs := Decode(s.lines, env.hash).records;
    && Complete(s, env) && Covers(s.now, rs, env.render)
    && (s.saved.Some? ==> Covers(s.saved.value, rs, env.render))
  }

  lemma {:induction false} FirstHeld(rs: seq<Record>, render: Render)
    ensures Held(FIRST, rs, render) && Covers(FIRST, rs, render) && Mark(FIRST.summary) == 0
  {
    EmptyIsHonest();
    RenderedNone(rs, 1, 0, render);
  }

  lemma {:induction false} BeginPartitions(env: Env)
    ensures Partitions(BEGIN, env)
  {
    FirstHeld(Decode([], env.hash).records, env.render);
  }

  lemma {:induction false} DecodedAscends(lines: seq<Line>, h: Hash)
    ensures Ascending(Decode(lines, h).records)
  {
    AfterAscending(lines, |lines|, h);
  }

  /** What an append adds to the trusted records: nothing, or records of its step behind all
      others, under the names of its calls. */
  lemma {:induction false} AppendAdds(lines: seq<Line>, g: Group, fault: Fault, h: Hash) returns (more: seq<Record>)
    requires Digests(h)
    ensures Decode(AppendTo(lines, g, h, fault).0, h).records == Decode(lines, h).records + more
    ensures more != [] ==> g.step > LastStep(Decode(lines, h).records)
    ensures forall k {:trigger more[k]} :: 0 <= k < |more| ==>
      more[k].body.step == g.step && exists c :: c in g.calls && c.name == more[k].body.tool
  {
    var before, after := Decode(lines, h).records, AppendTo(lines, g, h, fault).0;
    AppendIsAtomic(lines, g, h, fault);
    more := [];
    if Decode(after, h).records == before {
      assert before + [] == before;
    } else {
      more := NewRecords(lines, g, h);
      WholeGroupChained(g, LastId(before), h);
      forall k | 0 <= k < |more|
        ensures more[k].body.step == g.step && exists c :: c in g.calls && c.name == more[k].body.tool
      {
        assert ChainedAt(more, LastId(before), g.step, h, k);
        ToolAt(g, LastId(before), h, |g.calls|, k);
        assert g.calls[k] in g.calls;
      }
    }
  }

  lemma {:induction false} ToolAt(g: Group, parent: Option<string>, h: Hash, n: nat, k: nat)
    requires k < n <= |g.calls| == |g.results|
    ensures GroupRecords(g, parent, h, n)[k].body.tool == g.calls[k].name
  {
    if k < n - 1 {
      ToolAt(g, parent, h, n - 1, k);
      assert GroupRecords(g, parent, h, n)[k] == GroupRecords(g, parent, h, n - 1)[k];
    }
  }

  lemma {:induction false} AppendKeeps(s: Run, g: Group, fault: Fault, env: Env)
    requires Digests(env.hash) && Complete(s, env) && Allowed(s, Append(g, fault))
    ensures Complete(Next(s, Append(g, fault), env), env)
    ensures Partitions(s, env) ==> Partitions(Next(s, Append(g, fault), env), env)
  {
    var rs, t := Decode(s.lines, env.hash).records, Next(s, Append(g, fault), env);
    var more := AppendAdds(s.lines, g, fault, env.hash);
    MoreRecords(s.now, rs, more, env.render, Mark(s.now.summary));
    SameHistory(s.now, t.now, rs + more, env.render, Mark(s.now.summary));
    if s.saved.Some? {
      MoreRecords(s.saved.value, rs, more, env.render, Mark(s.saved.value.summary));
    }
  }

  /** A rollover whose summary reads back. */
  lemma {:induction false} RolloverCompletes(p: Position, d: Decoded, m: nat, step: int, max: nat,
                                             material: Material, env: Env)
    returns (t: Position, n: nat)
    requires Ascending(d.records) && HandsTo(p, d.records, env.render, m) && m == Mark(p.summary) && step <= p.cursor
    requires RolloverReadsBack(p, d, step, max, material, env)
    ensures t == RolledOver(p, d, step, max, material, env) && n == Mark(t.summary) && m <= n
    ensures HandsTo(t, d.records, env.render, n) && Honest(t.summary)
  {
    t, n := RolledOver(p, d, step, max, material, env), Reached(m, p.gap, d, step, max, env.render);
    RolloverHands(p, d, m, step, max, env.render);
    SameHistory(Extended(p, d, m, Tier3End(step, p.gap), Handed(m, p.gap, d, step, max, env.render), env.render), t,
                d.records, env.render, n);
    PrintedMark(material.tier3, n, Recent(d, step, env.views), Found(p.summary, material));
    PrintedIsHonest(material.tier3, n, Recent(d, step, env.views), Found(p.summary, material));
  }

  lemma {:induction false} RolloverKeeps(s: Run, step: int, max: nat, material: Material, env: Env)
    requires Complete(s, env) && step <= s.now.cursor
    requires RolloverReadsBack(s.now, Decode(s.lines, env.hash), step, max, material, env)
    ensures var d := Decode(s.lines, env.hash);
      var t := RolledOver(s.now, d, step, max, material, env);
      && Held(t, d.records, env.render) && Mark(s.now.summary) <= Mark(t.summary)
      && (Covers(s.now, d.records, env.render) ==> Covers(t, d.records, env.render))
  {
    var d := Decode(s.lines, env.hash);
    DecodedAscends(s.lines, env.hash);
    var t, n := RolloverCompletes(s.now, d, Mark(s.now.summary), step, max, material, env);
    if Covers(s.now, d.records, env.render) {
      RolloverKeepsIff(s.now, d, step, max, material, env);
    }
  }

  /** Another summary of the same watermark changes nothing. */
  lemma {:induction false} SameMark(p: Position, summary: string, rs: seq<Record>, render: Render)
    requires Held(p, rs, render) && Honest(summary) && Mark(summary) == Mark(p.summary)
    ensures Held(p.(summary := summary), rs, render)
    ensures Covers(p, rs, render) <==> Covers(p.(summary := summary), rs, render)
  {
    SameHistory(p, p.(summary := summary), rs, render, Mark(summary));
  }

  lemma {:induction false} SnapshotKeeps(p: Position, ahead: bool, reserved: bool, rs: seq<Record>, render: Render)
    requires Held(p, rs, render)
    ensures Held(Snapshot(p, ahead, reserved), rs, render)
    ensures Covers(p, rs, render) ==> Covers(Snapshot(p, ahead, reserved), rs, render)
  {
    SameHistory(p, Snapshot(p, ahead, reserved), rs, render, Mark(p.summary));
  }

  // Restarting

  /** A rebuilt record whose summary is made anew and reads back. */
  lemma {:induction false} RebuiltAnew(p: Position, d: Decoded, m: nat, max: nat, material: Material, env: Env)
    returns (t: Position, n: nat)
    requires Ascending(d.records) && HandsTo(p, d.records, env.render, m) && m == Mark(p.summary)
    requires !UpToDate(p, d) && RebuiltReadsBack(p, d, max, material, env)
    ensures t == Rebuilt(p, d, max, material, env) && n == Mark(t.summary) && n < t.cursor
    ensures HandsTo(t, d.records, env.render, n) && Honest(t.summary) && m <= n
    ensures n == m || n <= LastStep(d.records)
  {
    var s, cursor;
    s, n, cursor := RereadHolds(p, d, m, max, env.render);
    t := Rebuilt(p, d, max, material, env);
    var at := p.(cursor := cursor);
    SameHistory(p, at, d.records, env.render, m);
    LongerHands(at, d, m, 1, s, n, env.render);
    SameHistory(Longer(at, d, 1, s, env.render), t, d.records, env.render, n);
    PrintedMark(material.tier3, n, RebuiltIndex(d, LastStep(Relied(p, d)), env.views), material.generic);
    PrintedIsHonest(material.tier3, n, RebuiltIndex(d, LastStep(Relied(p, d)), env.views), material.generic);
  }

  lemma {:induction false} RebuiltKeeps(p: Position, d: Decoded, max: nat, material: Material, env: Env)
    requires Ascending(d.records) && Held(p, d.records, env.render)
    requires RebuiltReadsBack(p, d, max, material, env)
    ensures var t := Rebuilt(p, d, max, material, env);
      && Held(t, d.records, env.render) && Mark(p.summary) <= Mark(t.summary) && Mark(t.summary) < t.cursor
      && (Mark(t.summary) == Mark(p.summary) || Mark(t.summary) <= LastStep(d.records))
  {
    var m := Mark(p.summary);
    if UpToDate(p, d) {
      ReliedLast(p, d);
      CursorBehind(p, m, LastStep(Relied(p, d)));
      SameHistory(p, Rebuilt(p, d, max, material, env), d.records, env.render, m);
    } else {
      var t, n := RebuiltAnew(p, d, m, max, material, env);
    }
  }

  /** With a summary that reads back only a repetition breaks the partition. */
  lemma {:induction false} RebuiltOnceIff(p: Position, d: Decoded, max: nat, material: Material, env: Env)
    requires Ascending(d.records) && Covers(p, d.records, env.render) && RebuiltReadsBack(p, d, max, material, env)
    ensures Covers(Rebuilt(p, d, max, material, env), d.records, env.render) <==> !Rereads(p, d, max, env.render)
  {
    RebuiltKeepsIff(p, d, max, material, env);
    if !UpToDate(p, d) {
      RebuiltAnewIff(p, d, max, material, env);
      RenderedNone(d.records, 1, 0, env.render);
      var s, n, cursor := RereadHolds(p, d, Mark(p.summary), max, env.render);
    }
  }

  /** An unreadable log leaves the record as it is. */
  lemma {:induction false} UnreadKeeps(p: Position, rs: seq<Record>, max: nat, material: Material, env: Env)
    requires Held(p, rs, env.render)
    ensures var t := Rebuilt(p, Decoded([], false), max, material, env);
      && Held(t, rs, env.render) && t.summary == p.summary && Mark(t.summary) < t.cursor
      && (Covers(p, rs, env.render) <==> Covers(t, rs, env.render))
    ensures !Rereads(p, Decoded([], false), max, env.render)
  {
    assert KeepUpTo([], if p.gap.Some? then p.gap.value - 1 else 0) == [];
    CursorBehind(p, Mark(p.summary), 0);
    SameHistory(p, Rebuilt(p, Decoded([], false), max, material, env), rs, env.render, Mark(p.summary));
  }

  lemma {:induction false} RecordKeeps(s: Run, e: Event, env: Env) returns (t: Position)
    requires Complete(s, env) && s.saved.Some? && e.Restart?
    requires RebuiltReadsBack(s.saved.value, ReadLog(s.lines, e.readable, env.hash), e.max, e.material, env)
    ensures var r, d, rs := s.saved.value, ReadLog(s.lines, e.readable, env.hash), Decode(s.lines, env.hash).records;
      && t == Rebuilt(r, d, e.max, e.material, env)
      && Held(t, rs, env.render) && Mark(r.summary) <= Mark(t.summary) && Mark(t.summary) < t.cursor
      && (Mark(t.summary) == Mark(r.summary) || Mark(t.summary) <= LastStep(rs))
      && (Covers(r, rs, env.render) ==>
            (Covers(t, rs, env.render) <==> !Rereads(r, d, e.max, env.render)))
  {
    var r, rs := s.saved.value, Decode(s.lines, env.hash).records;
    t := Rebuilt(r, ReadLog(s.lines, e.readable, env.hash), e.max, e.material, env);
    if e.readable {
      DecodedAscends(s.lines, env.hash);
      RebuiltKeeps(r, Decode(s.lines, env.hash), e.max, e.material, env);
      if Covers(r, rs, env.render) {
        RebuiltOnceIff(r, Decode(s.lines, env.hash), e.max, e.material, env);
      }
    } else {
      UnreadKeeps(r, rs, e.max, e.material, env);
    }
  }

  lemma {:induction false} ShortenedKeeps(p: Position, shorten: bool, rs: seq<Record>, render: Render)
    requires Held(p, rs, render)
    ensures Held(Shortened(p, shorten), rs, render)
    ensures Mark(Shortened(p, shorten).summary) == Mark(p.summary) && Shortened(p, shorten).cursor == p.cursor
    ensures Covers(p, rs, render) <==> Covers(Shortened(p, shorten), rs, render)
  {
    if shorten {
      ResumeIsHonest(p.summary);
      SameMark(p, ResumeSummary(p.summary), rs, render);
    }
  }

  /** A restarted run continues from the durable watermark or from a later one, with all
      records up to it handed over; and it does so exactly once if and only if none is handed
      over again to rebuild the record. */
  lemma {:induction false} RestartKeepsIff(s: Run, e: Event, env: Env)
    requires Complete(s, env) && e.Restart? && Kept(s, e, env)
    ensures var t := Next(s, e, env);
      && Complete(t, env)
      && (s.saved.Some? ==> Mark(s.saved.value.summary) <= Mark(t.now.summary))
      && (Partitions(s, env) ==> (Partitions(t, env) <==> !Repeats(s, e, env)))
  {
    var rs := Decode(s.lines, env.hash).records;
    if s.saved.None? {
      FirstHeld(rs, env.render);
    } else {
      var r := s.saved.value;
      if e.ok {
        var rebuilt := RecordKeeps(s, e, env);
        ShortenedKeeps(if e.reread then rebuilt else r, e.shorten, rs, env.render);
      } else {
        ShortenedKeeps(r, e.shorten, rs, env.render);
      }
    }
  }

  // Whole runs

  /** Every step whose summaries read back leaves every record up to the watermark handed
      over, and exactly once unless a restart repeats one; no step but a restart lets the
      watermark fall. */
  lemma {:induction false} NextKeepsIff(s: Run, e: Event, env: Env)
    requires Digests(env.hash) && Complete(s, env) && Allowed(s, e) && Kept(s, e, env)
    ensures Complete(Next(s, e, env), env)
    ensures Partitions(s, env) ==> (Partitions(Next(s, e, env), env) <==> !Repeats(s, e, env))
    ensures !e.Restart? ==> Mark(s.now.summary) <= Mark(Next(s, e, env).now.summary)
    ensures e.Restart? && s.saved.Some? ==> Mark(s.saved.value.summary) <= Mark(Next(s, e, env).now.summary)
  {
    var rs := Decode(s.lines, env.hash).records;
    match e {
      case Advance => SameHistory(s.now, Next(s, e, env).now, rs, env.render, Mark(s.now.summary));
      case Append(g, fault) => AppendKeeps(s, g, fault, env);
      case Rollover(step, max, material) => RolloverKeeps(s, step, max, material, env);
      case Flushing(f) =>
        FlushIsHonest(s.now.summary, f);
        SameMark(s.now, Flushed(s.now.summary, f), rs, env.render);
      case Compacting(tier2, chars, discoveries) =>
        CompactionIsHonest(s.now.summary, tier2, chars, discoveries);
        SameMark(s.now, Compacted(s.now.summary, tier2, chars, discoveries), rs, env.render);
      case Save(ahead, reserved) => SnapshotKeeps(s.now, ahead, reserved, rs, env.render);
      case Restart(_, _, _, _, _, _) => RestartKeepsIff(s, e, env);
    }
  }

  /** A sequence of allowed events from s to t. */
  ghost predicate Leads(s: Run, es: seq<Event>, t: Run, env: Env)
    decreases |es|
  {
    if es == [] then s == t else Allowed(s, es[0]) && Leads(Next(s, es[0], env), es[1..], t, env)
  }

  /** Every summary printed on the way reads back. */
  ghost predicate AllKept(s: Run, es: seq<Event>, env: Env)
    decreases |es|
  {
    es != [] ==> Kept(s, es[0], env) && AllKept(Next(s, es[0], env), es[1..], env)
  }

  /** No restart on the way hands a record over again. */
  ghost predicate NeverRepeats(s: Run, es: seq<Event>, env: Env)
    decreases |es|
  {
    es != [] ==> !Repeats(s, es[0], env) && NeverRepeats(Next(s, es[0], env), es[1..], env)
  }

  /** Over every run of appends, rollovers, flushes, compactions, saves, crashes and restarts
      whose printed summaries read back, every record up to the watermark has been handed
      over; without a restart the watermark never falls. */
  lemma {:induction false} RunCompletes(s: Run, es: seq<Event>, t: Run, env: Env)
    requires Digests(env.hash) && Complete(s, env) && Leads(s, es, t, env) && AllKept(s, es, env)
    ensures Complete(t, env)
    ensures (forall k {:trigger es[k]} :: 0 <= k < |es| ==> !es[k].Restart?) ==>
      Mark(s.now.summary) <= Mark(t.now.summary)
    decreases |es|
  {
    if es != [] {
      NextKeepsIff(s, es[0], env);
      RunCompletes(Next(s, es[0], env), es[1..], t, env);
    }
  }

  /** And if no restart repeats a record, the sources behind the summary hold every eligible
      record up to its watermark exactly once, in order. */
  lemma {:induction false} SourcesPartitionTheLog(s: Run, es: seq<Event>, t: Run, env: Env)
    requires Digests(env.hash) && Partitions(s, env) && Leads(s, es, t, env)
    requires AllKept(s, es, env) && NeverRepeats(s, es, env)
    ensures Partitions(t, env)
    decreases |es|
  {
    if es != [] {
      NextKeepsIff(s, es[0], env);
      SourcesPartitionTheLog(Next(s, es[0], env), es[1..], t, env);
    }
  }

  lemma {:induction false} RenderedHolds(rs: seq<Record>, lo: int, hi: int, render: Render, k: nat)
    requires k < |rs| && Eligible(rs[k], lo, hi)
    ensures render(rs[k]) in Rendered(rs, lo, hi, render)
  {
    if k < |rs| - 1 {
      RenderedHolds(rs[..|rs| - 1], lo, hi, render, k);
    }
  }

  /** From its empty start, over every such run, with any restarts: each eligible record up
      to the watermark stands in a source. */
  lemma {:induction false} EveryRecordIsHandedOver(es: seq<Event>, t: Run, env: Env, k: nat) returns (i: nat)
    requires Digests(env.hash) && Leads(BEGIN, es, t, env) && AllKept(BEGIN, es, env)
    requires k < |Decode(t.lines, env.hash).records|
    requires Eligible(Decode(t.lines, env.hash).records[k], 1, Mark(t.now.summary))
    ensures i < |t.now.sources| == |t.now.parts| && t.now.sources[i] == Join(t.now.parts[i], NL)
    ensures env.render(Decode(t.lines, env.hash).records[k]) in t.now.parts[i]
  {
    var p, rs, m := t.now, Decode(t.lines, env.hash).records, Mark(t.now.summary);
    BeginPartitions(env);
    RunCompletes(BEGIN, es, t, env);
    assert InSpan(p.spans, rs[k].body.step);
    i :| 0 <= i < |p.spans| && p.spans[i].lo <= rs[k].body.step <= p.spans[i].hi;
    assert SourceAt(p, rs, env.render, m, i);
    RenderedHolds(rs, p.spans[i].lo, p.spans[i].hi, env.render, k);
  }

  /** And if no restart repeats a record, the sources are the log up to the watermark. */
  lemma {:induction false} RunFromBegin(es: seq<Event>, t: Run, env: Env)
    requires Digests(env.hash) && Leads(BEGIN, es, t, env) && AllKept(BEGIN, es, env) && NeverRepeats(BEGIN, es, env)
    ensures var p, rs := t.now, Decode(t.lines, env.hash).records;
      && Flat(p.parts) == Rendered(rs, 1, Mark(p.summary), env.render)
      && |p.sources| == |p.parts| && (forall i :: 0 <= i < |p.sources| ==> p.sources[i] == Join(p.parts[i], NL))
      && Mark(p.summary) < p.cursor && (p.gap.Some? ==> Mark(p.summary) < p.gap.value)
  {
    BeginPartitions(env);
    SourcesPartitionTheLog(BEGIN, es, t, env);
  }
}
