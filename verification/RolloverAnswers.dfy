/** What a rollover and the rebuilding of a record write into the summary. */
module RolloverAnswers {
  import opened Text
  import opened TieredSummary
  import opened SummaryRoundTrip
  import opened SummaryWatermark
  import opened SummaryRewrites
  import opened SummaryCoverage
  import opened Trajectory
  import opened Watermark
  import opened MicroIndex
  import opened WatermarkRuns

  /** What is parsed of a summary printed from a procedure, an index and discoveries. */
  predicate Reads(p: Parsed, tier3: string, through: int, index: seq<string>, discoveries: seq<string>) {
    && p.tier3 == Strip(Join(Collected(tier3), NL)) && p.through == (if through > 0 then through else 0)
    && p.tier2 == Tier2Printed(index) && p.discoveries == DiscoveriesPrinted(discoveries)
  }

  /** A rollover prints the new procedure, one line for each of the last thirty steps but the
      last ten, and the discoveries; the step and the gap of the run stay. */
  lemma {:induction false} RolloverTells(p: Position, d: Decoded, step: int, max: nat, material: Material, env: Env)
    requires NamesOneLine(d.records) && PlainLines(WatermarkRuns.Found(p.summary, material), false)
    ensures var q := RolledOver(p, d, step, max, material, env);
      && q.cursor == p.cursor && q.gap == p.gap
      && Reads(Parse(q.summary), material.tier3, Reached(Mark(p.summary), p.gap, d, step, max, env.render),
               MicroIndexOf(d.records, if step > 30 then step - 29 else 1, step - 10, env.views),
               WatermarkRuns.Found(p.summary, material))
  {
    var index := IndexIsPlain(d.records, Max(1, step - 29), step - 10, env.views);
    ParseRecovers(material.tier3, Reached(Mark(p.summary), p.gap, d, step, max, env.render), index,
                  WatermarkRuns.Found(p.summary, material));
  }

  /** The summary needs no rebuilding: nothing is trusted, or it reaches the last trusted step
      and holds a procedure or an index. */
  predicate Needless(p: Position, d: Decoded) {
    var q, rs := Parse(p.summary), Relied(p, d);
    rs == [] || (q.through >= rs[|rs| - 1].body.step && (q.tier3 != "" || q.tier2 != []))
  }

  lemma {:induction false} NothingParsed()
    ensures Parse("") == Parsed("", 0, [], [])
  {
    assert SplitLines("") == [];
    assert Seen("") == [];
    ViewSplit("", Seen);
  }

  /** Then it stays as it is, and no source is handed over... */
  lemma {:induction false} NeedlessStays(p: Position, d: Decoded, max: nat, material: Material, env: Env)
    requires Needless(p, d)
    ensures var q := Rebuilt(p, d, max, material, env);
      q.summary == p.summary && q.gap == p.gap && q.sources == p.sources
  {
    NothingParsed();
  }

  /** ... and otherwise it is printed anew: the procedure, one line for each of the last twenty
      trusted steps, and the discoveries found. */
  lemma {:induction false} RebuiltTells(p: Position, d: Decoded, max: nat, material: Material, env: Env)
    requires !Needless(p, d) && NamesOneLine(d.records) && PlainLines(material.generic, false)
    ensures var q, last := Rebuilt(p, d, max, material, env), LastStep(Relied(p, d));
      && q.gap == p.gap && |q.sources| == |p.sources| + 1
      && Reads(Parse(q.summary), material.tier3, RebuiltMark(p, d, max, env.render),
               MicroIndexOf(d.records, if last > 20 then last - 19 else 1, last, env.views), material.generic)
  {
    var last := LastStep(Relied(p, d));
    var index := IndexIsPlain(d.records, Max(1, last - 19), last, env.views);
    ParseRecovers(material.tier3, RebuiltMark(p, d, max, env.render), index, material.generic);
  }

  // The other steps

  /** A save makes the durable record from the running loop: the next step behind a finished
      one, and the gap not above the step where a batch is reserved. */
  lemma {:induction false} SaveTells(s: Run, ahead: bool, reserved: bool, env: Env)
    ensures var t := WatermarkRuns.Next(s, Save(ahead, reserved), env);
      && t.now == s.now && t.lines == s.lines && t.saved.Some?
      && t.saved.value.summary == s.now.summary && t.saved.value.sources == s.now.sources
      && t.saved.value.cursor == (if ahead then s.now.cursor + 1 else s.now.cursor)
      && (!reserved ==> t.saved.value.gap == s.now.gap)
      && (reserved ==> t.saved.value.gap.Some? && t.saved.value.gap.value <= s.now.cursor
                       && (t.saved.value.gap == s.now.gap || t.saved.value.gap == Some(s.now.cursor)))
  {}

  /** An append that fails lowers the gap to its step; no other step but a restart moves the
      gap of the running loop, and none but a save and a restart the durable record. */
  lemma {:induction false} OtherStepsTell(s: Run, e: Event, env: Env)
    requires !e.Restart?
    ensures var t := WatermarkRuns.Next(s, e, env);
      && t.now.cursor == s.now.cursor + (if e.Advance? then 1 else 0)
      && (!e.Save? ==> t.saved == s.saved)
      && t.lines == (if e.Append? then AppendTo(s.lines, e.group, env.hash, e.fault).0 else s.lines)
      && (e.Append? && !AppendTo(s.lines, e.group, env.hash, e.fault).1.Appended? ==>
            t.now.gap.Some? && t.now.gap.value <= e.group.step)
      && (!(e.Append? && !AppendTo(s.lines, e.group, env.hash, e.fault).1.Appended?) ==> t.now.gap == s.now.gap)
      && (t.now.summary != s.now.summary ==> e.Rollover? || e.Flushing? || e.Compacting?)
  {}

  /** A restarted loop has the summary of the rebuilt record, or of the record as it was if
      that could not be saved or read back, shortened if the run is resumed so. */
  lemma {:induction false} RestartTells(s: Run, e: Event, env: Env) returns (summary: string)
    requires e.Restart? && s.saved.Some?
    ensures
      var t := WatermarkRuns.Next(s, e, env);
      var d := if e.readable then Decode(s.lines, env.hash) else Decoded([], false);
      && summary == (if e.ok && e.reread then Rebuilt(s.saved.value, d, e.max, e.material, env).summary
                     else s.saved.value.summary)
      && t.now.summary == (if e.shorten then ResumeSummary(summary) else summary) && t.lines == s.lines
      && (!e.ok ==> t.saved == s.saved)
  {
    var d := if e.readable then Decode(s.lines, env.hash) else Decoded([], false);
    summary := if e.ok && e.reread then Rebuilt(s.saved.value, d, e.max, e.material, env).summary
               else s.saved.value.summary;
  }
}
