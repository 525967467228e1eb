/** The bounded consumer of the trajectory: the source text handed to Tier 3 compaction, and
    how far it reaches. */
module Watermark {
  import opened Text
  import opened Trajectory
  import opened TrajectoryIntegrity

  /** How one record is rendered into a line of source text. */
  type Render = Record -> string

  /** The lines of one step. */
  datatype Block = Block(step: int, lines: seq<string>)

  /** The record belongs into the source for steps lo .. hi. */
  predicate Eligible(r: Record, lo: int, hi: int) {
    lo <= r.body.step <= hi && r.body.tool != "record_state" && r.body.tool != "finish_task"
  }

  /** The rendered lines of the eligible records, in order. */
  function Rendered(rs: seq<Record>, lo: int, hi: int, render: Render): seq<string> {
    if rs == [] then []
    else if Eligible(rs[|rs| - 1], lo, hi) then Rendered(rs[..|rs| - 1], lo, hi, render) + [render(rs[|rs| - 1])]
    else Rendered(rs[..|rs| - 1], lo, hi, render)
  }

  /** One more line in the block of its step; records come in step order. */
  function AddLine(bs: seq<Block>, step: int, line: string): seq<Block> {
    if bs != [] && bs[|bs| - 1].step == step
    then bs[..|bs| - 1] + [Block(step, bs[|bs| - 1].lines + [line])]
    else bs + [Block(step, [line])]
  }

  /** The eligible records grouped by step. */
  function Grouped(rs: seq<Record>, lo: int, hi: int, render: Render): seq<Block> {
    if rs == [] then []
    else
      var r, bs := rs[|rs| - 1], Grouped(rs[..|rs| - 1], lo, hi, render);
      if Eligible(r, lo, hi) then AddLine(bs, r.body.step, render(r)) else bs
  }

  /** All lines of the first n blocks. */
  function LinesUpTo(bs: seq<Block>, n: nat): seq<string>
    requires n <= |bs|
  {
    if n == 0 then [] else LinesUpTo(bs, n - 1) + bs[n - 1].lines
  }

  function BlockText(b: Block): string { Join(b.lines, NL) }

  /** Characters used once n blocks are selected. */
  function Used(bs: seq<Block>, n: nat): nat
    requires n <= |bs|
  {
    if n == 0 then 0 else Used(bs, n - 1) + |BlockText(bs[n - 1])| + (if n > 1 then 1 else 0)
  }

  /** How many leading blocks fit, given that the first n do. */
  function Fitting(bs: seq<Block>, max: nat, n: nat): (k: nat)
    requires n <= |bs|
    ensures n <= k <= |bs|
    decreases |bs| - n
  {
    if n == |bs| || Used(bs, n + 1) > max then n else Fitting(bs, max, n + 1)
  }

  function Texts(bs: seq<Block>, n: nat): seq<string>
    requires n <= |bs|
  {
    if n == 0 then [] else Texts(bs, n - 1) + [BlockText(bs[n - 1])]
  }

  function Max(a: int, b: int): int { if a > b then a else b }
  function Min(a: int, b: int): int { if a < b then a else b }

  /** How far the log can be trusted for steps lo .. end. */
  function TrustedThrough(d: Decoded, lo: int, end: int): int {
    if d.complete then end
    else if d.records != [] then Min(end, LastStep(d.records))
    else lo - 1
  }

  datatype Source = Source(text: string, through: int)

  /** procedural_source, for a start of at least 1 and a positive bound. */
  function SourceOf(d: Decoded, end: int, max: nat, start: int, render: Render): Source {
    var lo := Max(1, start);
    if max == 0 || end < lo then Source("", lo - 1)
    else
      var trusted := TrustedThrough(d, lo, end);
      var bs := Grouped(d.records, lo, trusted, render);
      var k := Fitting(bs, max, 0);
      Source(Join(Texts(bs, k), NL),
             if k < |bs| then Max(lo - 1, bs[k].step - 1) else Max(lo - 1, trusted))
  }

  method ProceduralSource(d: Decoded, end: int, max: nat, start: int, render: Render) returns (s: Source)
    ensures s == SourceOf(d, end, max, start, render)
  {
    var lo := Max(1, start);
    if max == 0 || end < lo {
      return Source("", lo - 1);
    }
    var trusted := TrustedThrough(d, lo, end);
    var grouped: seq<Block> := [];
    for i := 0 to |d.records|
      invariant grouped == Grouped(d.records[..i], lo, trusted, render)
    {
      assert d.records[..i + 1][..i] == d.records[..i];
      var r := d.records[i];
      if Eligible(r, lo, trusted) {
        grouped := AddLine(grouped, r.body.step, render(r));
      }
    }
    assert d.records[..|d.records|] == d.records;
    var selected: seq<string>, used, through := [], 0, Max(lo - 1, trusted);
    var k := 0;
    while k < |grouped|
      invariant k <= |grouped| && selected == Texts(grouped, k) && used == Used(grouped, k)
      invariant Fitting(grouped, max, 0) == Fitting(grouped, max, k)
      invariant through == Max(lo - 1, trusted)
    {
      var block := BlockText(grouped[k]);
      var cost := |block| + if k > 0 then 1 else 0;
      if used + cost > max {
        return Source(Join(selected, NL), Max(lo - 1, grouped[k].step - 1));
      }
      selected := selected + [block];
      used := used + cost;
      k := k + 1;
    }
    s := Source(Join(selected, NL), Max(lo - 1, through));
  }

  // What a source holds

  ghost predicate Ascending(rs: seq<Record>) {
    forall i, j {:trigger rs[i], rs[j]} :: 0 <= i <= j < |rs| ==> rs[i].body.step <= rs[j].body.step
  }

  lemma {:induction false} AfterAscending(lines: seq<Line>, n: nat, h: Hash)
    requires n <= |lines|
    ensures Ascending(After(lines, n, h).records)
  {
    if n > 0 {
      AfterAscending(lines, n - 1, h);
      AfterSteps(lines, n - 1, h);
    }
  }

  lemma {:induction false} JoinMore(a: seq<string>, x: string)
    ensures Join(a + [x], NL) == if a == [] then x else Join(a, NL) + NL + x
  {
    if a == [] {
      assert a + [x] == [x];
    } else {
      assert (a + [x])[1..] == a[1..] + [x];
      JoinMore(a[1..], x);
    }
  }

  lemma {:induction false} JoinConcat(a: seq<string>, b: seq<string>)
    requires b != []
    ensures Join(a + b, NL) == if a == [] then Join(b, NL) else Join(a, NL) + NL + Join(b, NL)
  {
    if a == [] {
      assert a + b == b;
    } else {
      assert (a + b)[1..] == a[1..] + b;
      JoinConcat(a[1..], b);
    }
  }

  ghost predicate Filled(bs: seq<Block>) {
    forall i {:trigger bs[i]} :: 0 <= i < |bs| ==> bs[i].lines != []
  }

  ghost predicate Rising(bs: seq<Block>) {
    forall i, j {:trigger bs[i], bs[j]} :: 0 <= i < j < |bs| ==> bs[i].step < bs[j].step
  }

  /** Selecting blocks is selecting their lines. */
  lemma {:induction false} TextsAreLines(bs: seq<Block>, n: nat)
    requires n <= |bs| && Filled(bs)
    ensures Join(Texts(bs, n), NL) == Join(LinesUpTo(bs, n), NL)
    ensures n > 0 ==> Texts(bs, n) != [] && LinesUpTo(bs, n) != []
    ensures Used(bs, n) == |Join(LinesUpTo(bs, n), NL)|
  {
    if n > 0 {
      TextsAreLines(bs, n - 1);
      JoinMore(Texts(bs, n - 1), BlockText(bs[n - 1]));
      JoinConcat(LinesUpTo(bs, n - 1), bs[n - 1].lines);
    }
  }

  lemma {:induction false} FittingFits(bs: seq<Block>, max: nat, n: nat)
    requires n <= |bs| && Used(bs, n) <= max
    ensures Used(bs, Fitting(bs, max, n)) <= max
    ensures Fitting(bs, max, n) < |bs| ==> Used(bs, Fitting(bs, max, n) + 1) > max
    decreases |bs| - n
  {
    if n < |bs| && Used(bs, n + 1) <= max {
      FittingFits(bs, max, n + 1);
    }
  }

  lemma {:induction false} LinesUpToPrefix(bs: seq<Block>, m: nat, n: nat)
    requires n <= m <= |bs|
    ensures LinesUpTo(bs[..m], n) == LinesUpTo(bs, n)
  {
    if n > 0 {
      LinesUpToPrefix(bs, m, n - 1);
    }
  }

  lemma {:induction false} AddLineKeeps(bs: seq<Block>, step: int, line: string)
    requires Filled(bs) && Rising(bs) && (bs != [] ==> bs[|bs| - 1].step <= step)
    ensures var cs := AddLine(bs, step, line);
      && Filled(cs) && Rising(cs) && cs != [] && cs[|cs| - 1].step == step
      && LinesUpTo(cs, |cs|) == LinesUpTo(bs, |bs|) + [line]
  {
    var cs := AddLine(bs, step, line);
    var n := |cs| - 1;
    assert cs[..n] == bs[..n];
    LinesUpToPrefix(cs, n, n);
    LinesUpToPrefix(bs, n, n);
    if |bs| == n {
      assert LinesUpTo(bs, |bs|) == LinesUpTo(cs, n);
    } else {
      assert LinesUpTo(bs, |bs|) == LinesUpTo(cs, n) + bs[n].lines;
      assert LinesUpTo(cs, n) + (bs[n].lines + [line]) == LinesUpTo(cs, n) + bs[n].lines + [line];
    }
  }

  lemma {:induction false} AscendingPrefix(rs: seq<Record>)
    requires Ascending(rs) && rs != []
    ensures Ascending(rs[..|rs| - 1])
  {}

  /** The blocks of ascending records rise, and hold the eligible lines in order. */
  lemma {:induction false} GroupedHolds(rs: seq<Record>, lo: int, hi: int, render: Render)
    requires Ascending(rs)
    ensures var bs := Grouped(rs, lo, hi, render);
      && Filled(bs) && Rising(bs)
      && LinesUpTo(bs, |bs|) == Rendered(rs, lo, hi, render)
      && (bs != [] ==> lo <= bs[0].step && rs != [] && bs[|bs| - 1].step <= Min(hi, rs[|rs| - 1].body.step))
  {
    if rs != [] {
      var r, before := rs[|rs| - 1], rs[..|rs| - 1];
      AscendingPrefix(rs);
      GroupedHolds(before, lo, hi, render);
      var bs := Grouped(before, lo, hi, render);
      if Eligible(r, lo, hi) {
        assert bs != [] ==> bs[|bs| - 1].step <= before[|before| - 1].body.step <= r.body.step;
        AddLineKeeps(bs, r.body.step, render(r));
      }
    }
  }

  /** The leading blocks of steps up to c. */
  function UpTo(bs: seq<Block>, c: int): seq<Block> {
    if bs == [] then [] else if bs[|bs| - 1].step <= c then bs else UpTo(bs[..|bs| - 1], c)
  }

  /** Grouping for a lower bound is cutting off the later blocks. */
  lemma {:induction false} GroupedUpTo(rs: seq<Record>, lo: int, c: int, hi: int, render: Render)
    requires Ascending(rs) && c <= hi
    ensures Grouped(rs, lo, c, render) == UpTo(Grouped(rs, lo, hi, render), c)
  {
    if rs != [] {
      var r, before := rs[|rs| - 1], rs[..|rs| - 1];
      AscendingPrefix(rs);
      GroupedUpTo(before, lo, c, hi, render);
      GroupedHolds(before, lo, hi, render);
      var bs := Grouped(before, lo, hi, render);
      assert bs != [] ==> bs[|bs| - 1].step <= before[|before| - 1].body.step <= r.body.step;
      if Eligible(r, lo, hi) && r.body.step > c {
        var cs := AddLine(bs, r.body.step, render(r));
        assert cs[..|cs| - 1] == if |cs| == |bs| then bs[..|bs| - 1] else bs;
      }
    }
  }

  lemma {:induction false} UpToBlock(bs: seq<Block>, k: nat, n: nat)
    requires k <= n <= |bs| && Rising(bs) && k < |bs|
    ensures UpTo(bs[..n], bs[k].step - 1) == bs[..k]
  {
    if n > 0 {
      var cs := bs[..n];
      assert cs[..n - 1] == bs[..n - 1];
      if k < n {
        UpToBlock(bs, k, n - 1);
      } else {
        assert cs[n - 1].step < bs[k].step;
      }
    } else {
      assert bs[..0] == [];
    }
  }

  lemma {:induction false} UpToLater(bs: seq<Block>, k: nat, c: int, n: nat)
    requires k < n <= |bs| && Rising(bs) && bs[k].step <= c
    ensures exists m :: k < m <= n && UpTo(bs[..n], c) == bs[..m]
  {
    var cs := bs[..n];
    if cs[n - 1].step <= c {
      assert UpTo(cs, c) == bs[..n];
    } else {
      assert k < n - 1;
      assert cs[..n - 1] == bs[..n - 1];
      UpToLater(bs, k, c, n - 1);
    }
  }

  lemma {:induction false} UsedGrows(bs: seq<Block>, m: nat, n: nat)
    requires m <= n <= |bs|
    ensures Used(bs, m) <= Used(bs, n)
    decreases n
  {
    if m < n {
      UsedGrows(bs, m, n - 1);
    }
  }

  lemma {:induction false} RenderedNone(rs: seq<Record>, lo: int, hi: int, render: Render)
    requires hi < lo
    ensures Rendered(rs, lo, hi, render) == []
  {
    if rs != [] {
      RenderedNone(rs[..|rs| - 1], lo, hi, render);
    }
  }

  /** The lines rendered up to c are those of the blocks up to c. */
  lemma {:induction false} RenderedUpTo(rs: seq<Record>, lo: int, c: int, hi: int, render: Render, m: nat)
    requires Ascending(rs) && c <= hi && m <= |Grouped(rs, lo, hi, render)|
    requires UpTo(Grouped(rs, lo, hi, render), c) == Grouped(rs, lo, hi, render)[..m]
    ensures Rendered(rs, lo, c, render) == LinesUpTo(Grouped(rs, lo, hi, render), m)
  {
    var bs := Grouped(rs, lo, hi, render);
    GroupedUpTo(rs, lo, c, hi, render);
    GroupedHolds(rs, lo, c, render);
    LinesUpToPrefix(bs, m, m);
  }

  lemma {:induction false} RenderedBefore(rs: seq<Record>, lo: int, hi: int, render: Render, k: nat)
    requires Ascending(rs) && k < |Grouped(rs, lo, hi, render)|
    ensures var bs := Grouped(rs, lo, hi, render);
      lo <= bs[k].step <= hi && Rendered(rs, lo, bs[k].step - 1, render) == LinesUpTo(bs, k)
  {
    var bs := Grouped(rs, lo, hi, render);
    GroupedHolds(rs, lo, hi, render);
    assert bs[0].step <= bs[k].step <= bs[|bs| - 1].step by {
      assert k == 0 || bs[0].step < bs[k].step;
      assert k == |bs| - 1 || bs[k].step < bs[|bs| - 1].step;
    }
    UpToBlock(bs, k, |bs|);
    assert bs[..|bs|] == bs;
    RenderedUpTo(rs, lo, bs[k].step - 1, hi, render, k);
  }

  lemma {:induction false} RenderedBeyond(rs: seq<Record>, lo: int, c: int, hi: int, render: Render, k: nat)
    requires Ascending(rs) && k < |Grouped(rs, lo, hi, render)| && c <= hi
    requires Grouped(rs, lo, hi, render)[k].step <= c
    ensures |Join(Rendered(rs, lo, c, render), NL)| >= Used(Grouped(rs, lo, hi, render), k + 1)
  {
    var bs := Grouped(rs, lo, hi, render);
    GroupedHolds(rs, lo, hi, render);
    UpToLater(bs, k, c, |bs|);
    assert bs[..|bs|] == bs;
    var m :| k < m <= |bs| && UpTo(bs, c) == bs[..m];
    RenderedUpTo(rs, lo, c, hi, render, m);
    TextsAreLines(bs, m);
    UsedGrows(bs, k + 1, m);
  }

  /** The record is of steps lo .. hi and no bookkeeping of the run itself. */
  predicate Tells(r: Record, lo: int, hi: int) {
    r.body.step >= lo && r.body.step <= hi && !(r.body.tool in {"record_state", "finish_task"})
  }

  /** Rendered are exactly the records that tell something, each once and in order. */
  lemma {:induction false} RenderedSays(rs: seq<Record>, lo: int, hi: int, render: Render) returns (at: seq<nat>)
    ensures |at| == |Rendered(rs, lo, hi, render)|
    ensures forall k {:trigger at[k]} :: 0 <= k < |at| ==>
      at[k] < |rs| && Tells(rs[at[k]], lo, hi) && Rendered(rs, lo, hi, render)[k] == render(rs[at[k]])
    ensures forall j, k {:trigger at[j], at[k]} :: 0 <= j < k < |at| ==> at[j] < at[k]
    ensures forall i: nat {:trigger i in at} :: i < |rs| && Tells(rs[i], lo, hi) ==> i in at
  {
    at := [];
    if rs != [] {
      var n, before := |rs| - 1, rs[..|rs| - 1];
      at := RenderedSays(before, lo, hi, render);
      assert forall i: nat :: i < n && Tells(rs[i], lo, hi) ==> Tells(before[i], lo, hi);
      if Eligible(rs[n], lo, hi) {
        at := at + [n];
      }
    }
  }

  ghost predicate TooLong(rs: seq<Record>, lo: int, hi: int, render: Render, max: nat) {
    |Join(Rendered(rs, lo, hi, render), NL)| > max
  }

  /** The log says all there is to say about the steps up to this one: it is sound, or has a
      trusted record of this step or a later one. */
  predicate Reliable(d: Decoded, step: int) {
    d.complete || (d.records != [] && step <= d.records[|d.records| - 1].body.step)
  }

  /** What a source is: the eligible records from its start up to `through`, rendered in
      order, within the bound; no larger range of steps that can be relied on would fit. */
  ghost predicate IsSource(d: Decoded, end: int, max: nat, lo: int, render: Render, s: Source) {
    && |s.text| <= max
    && s.text == Join(Rendered(d.records, lo, s.through, render), NL)
    && lo - 1 <= s.through <= Max(lo - 1, end)
    && (s.through >= lo ==> Reliable(d, s.through))
    && (max > 0 ==> forall hi {:trigger TooLong(d.records, lo, hi, render, max)} ::
          s.through < hi <= end && Reliable(d, hi) ==> TooLong(d.records, lo, hi, render, max))
  }

  lemma {:induction false} SelectedIsSource(d: Decoded, end: int, max: nat, lo: int, render: Render, bs: seq<Block>,
                                            k: nat)
    requires Ascending(d.records) && max > 0 && 1 <= lo <= end
    requires bs == Grouped(d.records, lo, TrustedThrough(d, lo, end), render) && k == Fitting(bs, max, 0)
    ensures Filled(bs) && Used(bs, k) <= max
    ensures k < |bs| ==> lo <= bs[k].step <= TrustedThrough(d, lo, end)
    ensures k < |bs| ==> IsSource(d, end, max, lo, render, Source(Join(Texts(bs, k), NL), bs[k].step - 1))
  {
    var rs, trusted := d.records, TrustedThrough(d, lo, end);
    GroupedHolds(rs, lo, trusted, render);
    FittingFits(bs, max, 0);
    TextsAreLines(bs, k);
    if k < |bs| {
      RenderedBefore(rs, lo, trusted, render, k);
      forall hi | bs[k].step - 1 < hi <= end && Reliable(d, hi)
        ensures TooLong(rs, lo, hi, render, max)
      {
        assert hi <= trusted;
        RenderedBeyond(rs, lo, hi, trusted, render, k);
      }
    }
  }

  lemma {:induction false} AllIsSource(d: Decoded, end: int, max: nat, lo: int, render: Render, bs: seq<Block>)
    requires Ascending(d.records) && max > 0 && 1 <= lo <= end
    requires bs == Grouped(d.records, lo, TrustedThrough(d, lo, end), render) && Fitting(bs, max, 0) == |bs|
    ensures IsSource(d, end, max, lo, render,
                     Source(Join(Texts(bs, |bs|), NL), Max(lo - 1, TrustedThrough(d, lo, end))))
  {
    var trusted := TrustedThrough(d, lo, end);
    GroupedHolds(d.records, lo, trusted, render);
    FittingFits(bs, max, 0);
    TextsAreLines(bs, |bs|);
    if trusted < lo {
      RenderedNone(d.records, lo, trusted, render);
      RenderedNone(d.records, lo, lo - 1, render);
    }
  }

  lemma {:induction false} NothingIsSource(d: Decoded, end: int, max: nat, lo: int, render: Render)
    requires max == 0 || end < lo
    ensures IsSource(d, end, max, lo, render, Source("", lo - 1))
  {
    RenderedNone(d.records, lo, lo - 1, render);
  }

  lemma {:induction false} SourceHolds(d: Decoded, end: int, max: nat, start: int, render: Render)
    requires Ascending(d.records)
    ensures IsSource(d, end, max, Max(1, start), render, SourceOf(d, end, max, start, render))
  {
    var lo := Max(1, start);
    if max == 0 || end < lo {
      NothingIsSource(d, end, max, lo, render);
    } else {
      var bs := Grouped(d.records, lo, TrustedThrough(d, lo, end), render);
      var k := Fitting(bs, max, 0);
      SelectedIsSource(d, end, max, lo, render, bs, k);
      if k == |bs| {
        AllIsSource(d, end, max, lo, render, bs);
      }
    }
  }

  // Ranges of steps

  lemma {:induction false} RenderedConcat(a: seq<Record>, b: seq<Record>, lo: int, hi: int, render: Render)
    requires forall k {:trigger b[k]} :: 0 <= k < |b| ==> b[k].body.step > hi
    ensures Rendered(a + b, lo, hi, render) == Rendered(a, lo, hi, render)
  {
    if b == [] {
      assert a + b == a;
    } else {
      var m := a + b;
      assert m[..|m| - 1] == a + b[..|b| - 1] && m[|m| - 1] == b[|b| - 1];
      RenderedConcat(a, b[..|b| - 1], lo, hi, render);
    }
  }

  /** Ranges of steps render one behind the other. */
  lemma {:induction false} RenderedRanges(rs: seq<Record>, lo: int, mid: int, hi: int, render: Render)
    requires Ascending(rs) && lo - 1 <= mid <= hi
    ensures Rendered(rs, lo, hi, render) == Rendered(rs, lo, mid, render) + Rendered(rs, mid + 1, hi, render)
  {
    if rs != [] {
      var r, before := rs[|rs| - 1], rs[..|rs| - 1];
      AscendingPrefix(rs);
      RenderedRanges(before, lo, mid, hi, render);
      if r.body.step <= mid {
        RenderedLate(before, mid + 1, hi, render, r.body.step);
      }
    }
  }

  lemma {:induction false} RenderedLate(rs: seq<Record>, lo: int, hi: int, render: Render, last: int)
    requires last < lo && forall k {:trigger rs[k]} :: 0 <= k < |rs| ==> rs[k].body.step <= last
    ensures Rendered(rs, lo, hi, render) == []
  {
    if rs != [] {
      RenderedLate(rs[..|rs| - 1], lo, hi, render, last);
    }
  }
}
