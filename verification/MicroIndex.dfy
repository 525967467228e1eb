/** What a rollover prints below Tier 3: one line of the trajectory per recent step, and the
    list of discoveries. */
module MicroIndex {
  import opened Text
  import opened TieredSummary
  import opened SummaryRoundTrip
  import opened SummaryWatermark
  import opened Trajectory
  import opened Watermark

  const MICRO_CHARS := 280
  const MICRO_CUT := "...[생략]]"

  /** How the arguments and the result of a record print, before whitespace is collapsed. */
  datatype Views = Views(arguments: Record -> string, result: Record -> string)

  function CutMarker(n: nat): string { "...[" + Decimal(n) + "자 생략]..." }

  /** _clip_middle. */
  function ClipMiddle(text: string, limit: nat): (r: string)
    ensures |r| <= limit
  {
    if |text| <= limit then text
    else
      var marker := CutMarker(|text| - limit);
      if |marker| >= limit then marker[..limit]
      else
        var head := (limit - |marker|) * 3 / 4;
        var tail := limit - |marker| - head;
        text[..head] + marker + text[|text| - tail..]
  }

  function Preview(text: string, limit: nat): (r: string)
    ensures |r| <= limit
  {
    ClipMiddle(Collapse(text), limit)
  }

  /** One call of a step. The tool name is printed as it was recorded. */
  function Action(r: Record, v: Views): string {
    (if r.body.tool == "" then "unknown" else r.body.tool)
    + ("(" + Preview(v.arguments(r), 55) + ") -> " + Preview(v.result(r), 45))
  }

  function ClipMicro(line: string): string {
    if |line| <= MICRO_CHARS then line else line[..MICRO_CHARS - |MICRO_CUT|] + MICRO_CUT
  }

  function StepHead(step: int): string {
    "[Step " + Decimal(if step > 0 then step else 0) + ": "
  }

  function MicroLine(b: Block): string {
    ClipMicro(StepHead(b.step) + Join(b.lines, " | ") + "]")
  }

  /** The actions of the records of steps lo .. hi, grouped by step. */
  function Actions(rs: seq<Record>, lo: int, hi: int, v: Views): seq<Block> {
    if rs == [] then []
    else
      var r, bs := rs[|rs| - 1], Actions(rs[..|rs| - 1], lo, hi, v);
      if lo <= r.body.step <= hi then AddLine(bs, r.body.step, Action(r, v)) else bs
  }

  function MicroLines(bs: seq<Block>): (r: seq<string>)
    ensures |r| == |bs| && forall k :: 0 <= k < |r| ==> r[k] == MicroLine(bs[k])
  {
    seq(|bs|, k requires 0 <= k < |bs| => MicroLine(bs[k]))
  }

  /** micro_index. */
  function MicroIndexOf(rs: seq<Record>, lo: int, hi: int, v: Views): seq<string> {
    if hi < lo then [] else MicroLines(Actions(rs, lo, hi, v))
  }

  lemma {:induction false} ActionsStep(rs: seq<Record>, i: nat, lo: int, hi: int, v: Views)
    requires i < |rs|
    ensures var bs := Actions(rs[..i], lo, hi, v);
      Actions(rs[..i + 1], lo, hi, v)
      == if lo <= rs[i].body.step <= hi then AddLine(bs, rs[i].body.step, Action(rs[i], v)) else bs
  {
    assert rs[..i + 1][..i] == rs[..i];
  }

  /** The lines of the groups. */
  method PrintLines(bs: seq<Block>) returns (lines: seq<string>)
    ensures lines == MicroLines(bs)
  {
    lines := [];
    for k := 0 to |bs|
      invariant |lines| == k && forall j :: 0 <= j < k ==> lines[j] == MicroLine(bs[j])
    {
      lines := lines + [MicroLine(bs[k])];
    }
  }

  method BuildMicroIndex(rs: seq<Record>, lo: int, hi: int, v: Views) returns (lines: seq<string>)
    ensures lines == MicroIndexOf(rs, lo, hi, v)
  {
    lines := [];
    if hi < lo {
      return;
    }
    var grouped: seq<Block> := [];
    for i := 0 to |rs|
      invariant grouped == Actions(rs[..i], lo, hi, v)
    {
      ActionsStep(rs, i, lo, hi, v);
      var r := rs[i];
      if lo <= r.body.step <= hi {
        grouped := AddLine(grouped, r.body.step, Action(r, v));
      }
    }
    assert rs[..|rs|] == rs;
    lines := PrintLines(grouped);
  }

  /** The first ten different discoveries among the first n that are kept. */
  function Merged(items: seq<string>, keep: string -> bool, n: nat): seq<string>
    requires n <= |items|
  {
    if n == 0 then []
    else
      var d, item := Merged(items, keep, n - 1), items[n - 1];
      if |d| >= DISCOVERY_LINES || item in d || !keep(item) then d else d + [item]
  }

  /** The merging loop, which stops when the list is full. */
  method MergeDiscoveries(items: seq<string>, keep: string -> bool) returns (d: seq<string>)
    ensures d == Merged(items, keep, |items|)
  {
    d := [];
    for i := 0 to |items|
      invariant d == Merged(items, keep, i) && |d| < DISCOVERY_LINES
    {
      if keep(items[i]) && items[i] !in d {
        d := d + [items[i]];
        if |d| >= DISCOVERY_LINES {
          MergedIsFull(items, keep, i + 1, |items|);
          return;
        }
      }
    }
  }

  lemma {:induction false} MergedIsFull(items: seq<string>, keep: string -> bool, m: nat, n: nat)
    requires m <= n <= |items| && |Merged(items, keep, m)| >= DISCOVERY_LINES
    ensures Merged(items, keep, n) == Merged(items, keep, m)
    decreases n
  {
    if m < n {
      MergedIsFull(items, keep, m, n - 1);
    }
  }

  /** The merged list holds items that are kept, each once, ten at most. */
  lemma {:induction false} MergedHolds(items: seq<string>, keep: string -> bool, n: nat)
    requires n <= |items|
    ensures var d := Merged(items, keep, n);
      && |d| <= DISCOVERY_LINES
      && (forall i {:trigger d[i]} :: 0 <= i < |d| ==> keep(d[i]) && d[i] in items[..n])
      && (forall i, j {:trigger d[i], d[j]} :: 0 <= i < j < |d| ==> d[i] != d[j])
  {
    if n > 0 {
      MergedHolds(items, keep, n - 1);
      assert items[..n] == items[..n - 1] + [items[n - 1]];
    }
  }

  /** A kept item is in it, unless ten others come before it. */
  lemma {:induction false} MergedKeeps(items: seq<string>, keep: string -> bool, n: nat, k: nat)
    requires k < n <= |items| && keep(items[k])
    ensures items[k] in Merged(items, keep, n)
            || (|Merged(items, keep, k)| == DISCOVERY_LINES && Merged(items, keep, n) == Merged(items, keep, k))
  {
    MergedHolds(items, keep, k);
    if |Merged(items, keep, k)| == DISCOVERY_LINES {
      MergedIsFull(items, keep, k, n);
    } else {
      MergedStays(items, keep, k + 1, n, items[k]);
    }
  }

  /** The items in it stand in their order, each where it was first given. */
  lemma {:induction false} MergedInOrder(items: seq<string>, keep: string -> bool, n: nat) returns (at: seq<nat>)
    requires n <= |items|
    ensures |at| == |Merged(items, keep, n)|
    ensures forall k {:trigger at[k]} :: 0 <= k < |at| ==>
      at[k] < n && Merged(items, keep, n)[k] == items[at[k]] && forall j :: 0 <= j < at[k] ==> items[j] != items[at[k]]
    ensures forall j, k {:trigger at[j], at[k]} :: 0 <= j < k < |at| ==> at[j] < at[k]
  {
    at := [];
    if n > 0 {
      at := MergedInOrder(items, keep, n - 1);
      if Merged(items, keep, n) != Merged(items, keep, n - 1) {
        FirstGiven(items, keep, n - 1);
        at := at + [n - 1];
      }
    }
  }

  lemma {:induction false} FirstGiven(items: seq<string>, keep: string -> bool, n: nat)
    requires n < |items| && |Merged(items, keep, n)| < DISCOVERY_LINES
    requires keep(items[n]) && items[n] !in Merged(items, keep, n)
    ensures forall j :: 0 <= j < n ==> items[j] != items[n]
  {
    forall j | 0 <= j < n
      ensures items[j] != items[n]
    {
      if items[j] == items[n] {
        MergedKeeps(items, keep, n, j);
      }
    }
  }

  lemma {:induction false} MergedStays(items: seq<string>, keep: string -> bool, m: nat, n: nat, item: string)
    requires m <= n <= |items| && item in Merged(items, keep, m)
    ensures item in Merged(items, keep, n)
    decreases n
  {
    if m < n {
      MergedStays(items, keep, m, n - 1, item);
    }
  }

  // What the index holds

  /** The actions of one step, in order. */
  function ActionsAt(rs: seq<Record>, step: int, act: Record -> string): seq<string> {
    if rs == [] then []
    else if rs[|rs| - 1].body.step == step then ActionsAt(rs[..|rs| - 1], step, act) + [act(rs[|rs| - 1])]
    else ActionsAt(rs[..|rs| - 1], step, act)
  }

  /** The block holds all the actions of its step, which lies in the range. */
  ghost predicate HoldsStep(b: Block, rs: seq<Record>, lo: int, hi: int, act: Record -> string) {
    lo <= b.step <= hi && b.lines == ActionsAt(rs, b.step, act) && b.lines != []
  }

  ghost predicate HasStep(bs: seq<Block>, step: int) {
    exists i {:trigger bs[i]} :: 0 <= i < |bs| && bs[i].step == step
  }

  /** The groups are the steps of the range that have records, each once and in order, with
      all their actions. */
  ghost predicate HoldsActions(bs: seq<Block>, rs: seq<Record>, lo: int, hi: int, act: Record -> string) {
    && Rising(bs)
    && (forall i {:trigger bs[i]} :: 0 <= i < |bs| ==> HoldsStep(bs[i], rs, lo, hi, act))
    && (forall k {:trigger rs[k]} :: 0 <= k < |rs| && lo <= rs[k].body.step <= hi ==> HasStep(bs, rs[k].body.step))
  }

  lemma {:induction false} NoActionsAt(rs: seq<Record>, step: int, act: Record -> string)
    requires forall k {:trigger rs[k]} :: 0 <= k < |rs| ==> rs[k].body.step != step
    ensures ActionsAt(rs, step, act) == []
  {
    if rs != [] {
      NoActionsAt(rs[..|rs| - 1], step, act);
    }
  }

  lemma {:induction false} ActionsAtMore(rs: seq<Record>, r: Record, step: int, act: Record -> string)
    ensures ActionsAt(rs + [r], step, act)
            == if r.body.step == step then ActionsAt(rs, step, act) + [act(r)] else ActionsAt(rs, step, act)
  {
    assert (rs + [r])[..|rs|] == rs;
  }

  /** The last group belongs to a record. */
  lemma {:induction false} LastStepHas(rs: seq<Record>, lo: int, hi: int, act: Record -> string, bs: seq<Block>)
    requires HoldsActions(bs, rs, lo, hi, act)
    ensures bs != [] ==> exists k :: 0 <= k < |rs| && rs[k].body.step == bs[|bs| - 1].step
  {
    if bs != [] {
      var b := bs[|bs| - 1];
      assert HoldsStep(b, rs, lo, hi, act);
      if forall k :: 0 <= k < |rs| ==> rs[k].body.step != b.step {
        NoActionsAt(rs, b.step, act);
      }
    }
  }

  lemma {:induction false} HasStepMore(bs: seq<Block>, b: Block, step: int)
    ensures HasStep(bs + [b], step) <==> HasStep(bs, step) || b.step == step
  {
    var cs := bs + [b];
    assert cs[|bs|] == b && forall i :: 0 <= i < |bs| ==> cs[i] == bs[i];
    if HasStep(bs, step) {
      var i :| 0 <= i < |bs| && bs[i].step == step;
      assert cs[i].step == step;
    }
  }

  /** A record of the step of the last group joins it... */
  lemma {:induction false} ActionsJoin(rs: seq<Record>, r: Record, lo: int, hi: int, act: Record -> string,
                                       bs: seq<Block>)
    returns (cs: seq<Block>)
    requires HoldsActions(bs, rs, lo, hi, act) && bs != [] && bs[|bs| - 1].step == r.body.step
    ensures cs == bs[..|bs| - 1] + [Block(r.body.step, bs[|bs| - 1].lines + [act(r)])]
    ensures HoldsActions(cs, rs + [r], lo, hi, act)
  {
    var n, all := |bs| - 1, rs + [r];
    cs := bs[..n] + [Block(r.body.step, bs[n].lines + [act(r)])];
    assert HoldsStep(bs[n], rs, lo, hi, act);
    forall i | 0 <= i < |cs|
      ensures HoldsStep(cs[i], all, lo, hi, act)
    {
      assert HoldsStep(bs[i], rs, lo, hi, act);
      ActionsAtMore(rs, r, bs[i].step, act);
    }
    forall k | 0 <= k < |all| && lo <= all[k].body.step <= hi
      ensures HasStep(cs, all[k].body.step)
    {
      HasStepMore(bs[..n], cs[n], all[k].body.step);
      HasStepMore(bs[..n], bs[n], all[k].body.step);
      assert bs[..n] + [bs[n]] == bs;
      if k < |rs| {
        assert HasStep(bs, rs[k].body.step);
      }
    }
  }

  /** If no group is of this step, all are of earlier ones. */
  lemma {:induction false} StepsBelow(rs: seq<Record>, lo: int, hi: int, act: Record -> string, bs: seq<Block>,
                                      step: int)
    requires HoldsActions(bs, rs, lo, hi, act) && (bs == [] || bs[|bs| - 1].step != step)
    requires forall k {:trigger rs[k]} :: 0 <= k < |rs| ==> rs[k].body.step <= step
    ensures !HasStep(bs, step) && forall i {:trigger bs[i]} :: 0 <= i < |bs| ==> bs[i].step < step
  {
    LastStepHas(rs, lo, hi, act, bs);
    forall i | 0 <= i < |bs|
      ensures bs[i].step < step
    {
      assert bs[i].step <= bs[|bs| - 1].step;
    }
  }

  lemma {:induction false} NoStepYet(rs: seq<Record>, lo: int, hi: int, act: Record -> string, bs: seq<Block>,
                                     step: int)
    requires HoldsActions(bs, rs, lo, hi, act) && lo <= step <= hi && !HasStep(bs, step)
    ensures ActionsAt(rs, step, act) == []
  {
    forall k | 0 <= k < |rs|
      ensures rs[k].body.step != step
    {
      assert rs[k].body.step == step ==> HasStep(bs, step);
    }
    NoActionsAt(rs, step, act);
  }

  lemma {:induction false} StepsHadMore(rs: seq<Record>, r: Record, lo: int, hi: int, bs: seq<Block>, b: Block)
    requires forall k {:trigger rs[k]} :: 0 <= k < |rs| && lo <= rs[k].body.step <= hi ==> HasStep(bs, rs[k].body.step)
    requires b.step == r.body.step
    ensures forall k {:trigger (rs + [r])[k]} :: 0 <= k < |rs + [r]| && lo <= (rs + [r])[k].body.step <= hi ==>
      HasStep(bs + [b], (rs + [r])[k].body.step)
  {
    var all := rs + [r];
    forall k | 0 <= k < |all| && lo <= all[k].body.step <= hi
      ensures HasStep(bs + [b], all[k].body.step)
    {
      HasStepMore(bs, b, all[k].body.step);
      if k < |rs| {
        assert HasStep(bs, rs[k].body.step);
      }
    }
  }

  lemma {:induction false} OlderStepsStay(rs: seq<Record>, r: Record, lo: int, hi: int, act: Record -> string,
                                          bs: seq<Block>)
    requires HoldsActions(bs, rs, lo, hi, act)
    requires forall i {:trigger bs[i]} :: 0 <= i < |bs| ==> bs[i].step != r.body.step
    ensures forall i {:trigger bs[i]} :: 0 <= i < |bs| ==> HoldsStep(bs[i], rs + [r], lo, hi, act)
  {
    forall i | 0 <= i < |bs|
      ensures HoldsStep(bs[i], rs + [r], lo, hi, act)
    {
      assert HoldsStep(bs[i], rs, lo, hi, act);
      ActionsAtMore(rs, r, bs[i].step, act);
    }
  }

  lemma {:induction false} RisingMore(bs: seq<Block>, b: Block)
    requires Rising(bs) && forall i {:trigger bs[i]} :: 0 <= i < |bs| ==> bs[i].step < b.step
    ensures Rising(bs + [b])
  {}

  lemma {:induction false} HoldsOneMore(bs: seq<Block>, b: Block, rs: seq<Record>, lo: int, hi: int,
                                        act: Record -> string)
    requires Rising(bs) && forall i {:trigger bs[i]} :: 0 <= i < |bs| ==> bs[i].step < b.step
    requires HoldsStep(b, rs, lo, hi, act) && forall i {:trigger bs[i]} :: 0 <= i < |bs| ==>
        HoldsStep(bs[i], rs, lo, hi, act)
    requires forall k {:trigger rs[k]} :: 0 <= k < |rs| && lo <= rs[k].body.step <= hi ==>
      HasStep(bs + [b], rs[k].body.step)
    ensures HoldsActions(bs + [b], rs, lo, hi, act)
  {
    RisingMore(bs, b);
  }

  lemma {:induction false} NewStepHolds(rs: seq<Record>, r: Record, lo: int, hi: int, act: Record -> string,
                                        bs: seq<Block>)
    requires HoldsActions(bs, rs, lo, hi, act) && lo <= r.body.step <= hi && !HasStep(bs, r.body.step)
    ensures HoldsStep(Block(r.body.step, [act(r)]), rs + [r], lo, hi, act)
  {
    NoStepYet(rs, lo, hi, act, bs, r.body.step);
    ActionsAtMore(rs, r, r.body.step, act);
    assert [] + [act(r)] == [act(r)];
  }

  /** ... and one of a later step begins a new one. */
  lemma {:induction false} ActionsBegin(rs: seq<Record>, r: Record, lo: int, hi: int, act: Record -> string,
                                        bs: seq<Block>)
    returns (cs: seq<Block>)
    requires HoldsActions(bs, rs, lo, hi, act) && lo <= r.body.step <= hi
    requires forall k {:trigger rs[k]} :: 0 <= k < |rs| ==> rs[k].body.step <= r.body.step
    requires bs == [] || bs[|bs| - 1].step != r.body.step
    ensures cs == bs + [Block(r.body.step, [act(r)])] && HoldsActions(cs, rs + [r], lo, hi, act)
  {
    var b := Block(r.body.step, [act(r)]);
    StepsBelow(rs, lo, hi, act, bs, b.step);
    NewStepHolds(rs, r, lo, hi, act, bs);
    OlderStepsStay(rs, r, lo, hi, act, bs);
    StepsHadMore(rs, r, lo, hi, bs, b);
    HoldsOneMore(bs, b, rs + [r], lo, hi, act);
    cs := bs + [b];
  }

  /** One outside the range changes nothing. */
  lemma {:induction false} ActionsSkip(rs: seq<Record>, r: Record, lo: int, hi: int, act: Record -> string,
                                       bs: seq<Block>)
    requires HoldsActions(bs, rs, lo, hi, act) && !(lo <= r.body.step <= hi)
    ensures HoldsActions(bs, rs + [r], lo, hi, act)
  {
    var all := rs + [r];
    forall i | 0 <= i < |bs|
      ensures HoldsStep(bs[i], all, lo, hi, act)
    {
      assert HoldsStep(bs[i], rs, lo, hi, act);
      ActionsAtMore(rs, r, bs[i].step, act);
    }
    forall k | 0 <= k < |all| && lo <= all[k].body.step <= hi
      ensures HasStep(bs, all[k].body.step)
    {
      assert k < |rs| && HasStep(bs, rs[k].body.step);
    }
  }

  lemma {:induction false} NextActions(rs: seq<Record>, lo: int, hi: int, v: Views, act: Record -> string)
    returns (before: seq<Record>, r: Record, bs: seq<Block>)
    requires rs != [] && forall x :: act(x) == Action(x, v)
    ensures before == rs[..|rs| - 1] && r == rs[|rs| - 1] && before + [r] == rs && bs == Actions(before, lo, hi, v)
    ensures Actions(rs, lo, hi, v) ==
      if !(lo <= r.body.step <= hi) then bs
      else if bs != [] && bs[|bs| - 1].step == r.body.step
      then bs[..|bs| - 1] + [Block(r.body.step, bs[|bs| - 1].lines + [act(r)])]
      else bs + [Block(r.body.step, [act(r)])]
  {
    before, r := rs[..|rs| - 1], rs[|rs| - 1];
    bs := Actions(before, lo, hi, v);
  }

  lemma {:induction false} OneMoreAction(rs: seq<Record>, r: Record, lo: int, hi: int, act: Record -> string,
                                         bs: seq<Block>)
    returns (cs: seq<Block>)
    requires HoldsActions(bs, rs, lo, hi, act)
    requires forall k {:trigger rs[k]} :: 0 <= k < |rs| ==> rs[k].body.step <= r.body.step
    ensures HoldsActions(cs, rs + [r], lo, hi, act)
    ensures cs ==
      if !(lo <= r.body.step <= hi) then bs
      else if bs != [] && bs[|bs| - 1].step == r.body.step
      then bs[..|bs| - 1] + [Block(r.body.step, bs[|bs| - 1].lines + [act(r)])]
      else bs + [Block(r.body.step, [act(r)])]
  {
    if !(lo <= r.body.step <= hi) {
      ActionsSkip(rs, r, lo, hi, act, bs);
      cs := bs;
    } else if bs != [] && bs[|bs| - 1].step == r.body.step {
      cs := ActionsJoin(rs, r, lo, hi, act, bs);
    } else {
      cs := ActionsBegin(rs, r, lo, hi, act, bs);
    }
  }

  lemma {:induction false} ActionsHold(rs: seq<Record>, lo: int, hi: int, v: Views, act: Record -> string)
    returns (cs: seq<Block>)
    requires Ascending(rs) && forall x :: act(x) == Action(x, v)
    ensures cs == Actions(rs, lo, hi, v) && HoldsActions(cs, rs, lo, hi, act)
  {
    if rs == [] {
      cs := [];
    } else {
      var before, r, bs := NextActions(rs, lo, hi, v, act);
      AscendingPrefix(rs);
      var ds := ActionsHold(before, lo, hi, v, act);
      cs := OneMoreAction(before, r, lo, hi, act, ds);
    }
  }

  /** The index has one line for each step of the range that has records, in order: the step
      and all its actions, as long as they fit 280 characters. */
  lemma {:induction false} IndexHolds(rs: seq<Record>, lo: int, hi: int, v: Views, act: Record -> string)
    returns (bs: seq<Block>)
    requires Ascending(rs) && lo <= hi && forall x :: act(x) == Action(x, v)
    ensures HoldsActions(bs, rs, lo, hi, act) && |MicroIndexOf(rs, lo, hi, v)| == |bs|
    ensures forall i {:trigger bs[i]} :: 0 <= i < |bs| ==> PrintsStep(MicroIndexOf(rs, lo, hi, v)[i], bs[i])
  {
    bs := ActionsHold(rs, lo, hi, v, act);
    forall i | 0 <= i < |bs|
      ensures PrintsStep(MicroIndexOf(rs, lo, hi, v)[i], bs[i])
    {
      LinePrints(bs[i]);
    }
  }

  /** The line is the step and its actions, cut behind 280 characters. */
  predicate PrintsStep(line: string, b: Block) {
    var text := "[Step " + Decimal(if b.step > 0 then b.step else 0) + ": " + Join(b.lines, " | ") + "]";
    && |line| <= 280 && (|text| <= 280 ==> line == text)
    && (|text| > 280 ==> line == text[..280 - |MICRO_CUT|] + MICRO_CUT)
  }

  lemma {:induction false} LinePrints(b: Block)
    ensures PrintsStep(MicroLine(b), b)
  {}

  /** A short text is previewed whole, with its whitespace collapsed; of a longer one, at
      most the limit: its beginning and its end. */
  lemma {:induction false} PreviewSays(text: string, limit: nat) returns (a: nat)
    ensures |Preview(text, limit)| <= limit && (|Collapse(text)| <= limit ==> Preview(text, limit) == Collapse(text))
    ensures |Collapse(text)| > limit ==>
      var t, marker := Collapse(text), CutMarker(|Collapse(text)| - limit);
      |marker| < limit ==>
        && a + |marker| <= limit && |Preview(text, limit)| == limit
        && Preview(text, limit) == t[..a] + marker + t[|t| - (limit - |marker| - a)..]
  {
    var t := Collapse(text);
    a := 0;
    if |t| > limit && |CutMarker(|t| - limit)| < limit {
      a := (limit - |CutMarker(|t| - limit)|) * 3 / 4;
    }
  }

  /** An action names its tool as recorded, then its arguments, then its result. */
  lemma {:induction false} ActionSays(r: Record, v: Views)
    requires |Collapse(v.arguments(r))| <= 55 && |Collapse(v.result(r))| <= 45 && r.body.tool != ""
    ensures Action(r, v) == r.body.tool + "(" + Collapse(v.arguments(r)) + ") -> " + Collapse(v.result(r))
  {}

  // Names on one line

  lemma {:induction false} CollapsedOneLine(s: string, i: nat, gap: bool)
    requires i <= |s|
    ensures OneLine(Collapsed(s, i, gap))
    decreases |s| - i
  {
    if i < |s| {
      CollapsedOneLine(s, i + 1, IsSpace(s[i]));
      if !IsSpace(s[i]) {
        OneLineConcat(if gap then [' ', s[i]] else [s[i]], Collapsed(s, i + 1, false));
      }
    }
  }

  lemma {:induction false} PartOneLine(s: string, a: nat, b: nat)
    requires OneLine(s) && a <= b <= |s|
    ensures OneLine(s[a..b])
  {}

  lemma {:induction false} MarkerOneLine(n: nat)
    ensures OneLine(CutMarker(n))
  {
    ParseDecimal(n);
    OneLineConcat("...[", Decimal(n));
    OneLineConcat("...[" + Decimal(n), "자 생략]...");
  }

  lemma {:induction false} AroundOneLine(t: string, marker: string, head: nat, tail: nat)
    requires OneLine(t) && OneLine(marker) && head <= |t| && tail <= |t|
    ensures OneLine(t[..head] + marker + t[|t| - tail..])
  {
    PartOneLine(t, 0, head);
    PartOneLine(t, |t| - tail, |t|);
    OneLineConcat(t[..head], marker);
    OneLineConcat(t[..head] + marker, t[|t| - tail..]);
  }

  lemma {:induction false} ClipMiddleOneLine(t: string, limit: nat)
    requires OneLine(t)
    ensures OneLine(ClipMiddle(t, limit))
  {
    if |t| > limit {
      MarkerOneLine(|t| - limit);
      AroundMarker(t, CutMarker(|t| - limit), limit);
    }
  }

  lemma {:induction false} AroundMarker(t: string, marker: string, limit: nat)
    requires OneLine(t) && OneLine(marker) && limit < |t|
    ensures |marker| >= limit ==> OneLine(marker[..limit])
    ensures |marker| < limit ==>
      var head := (limit - |marker|) * 3 / 4;
      OneLine(t[..head] + marker + t[|t| - (limit - |marker| - head)..])
  {
    if |marker| >= limit {
      PartOneLine(marker, 0, limit);
    } else {
      var head := (limit - |marker|) * 3 / 4;
      AroundOneLine(t, marker, head, limit - |marker| - head);
    }
  }

  lemma {:induction false} PreviewOneLine(text: string, limit: nat)
    ensures OneLine(Preview(text, limit))
  {
    CollapsedOneLine(Strip(text), 0, false);
    ClipMiddleOneLine(Collapse(text), limit);
  }

  /** What follows the tool name. */
  function ActionTail(r: Record, v: Views): string {
    "(" + Preview(v.arguments(r), 55) + ") -> " + Preview(v.result(r), 45)
  }

  lemma {:induction false} TailOneLine(r: Record, v: Views)
    ensures OneLine(ActionTail(r, v)) && |ActionTail(r, v)| <= 106
  {
    var a, b := Preview(v.arguments(r), 55), Preview(v.result(r), 45);
    PreviewOneLine(v.arguments(r), 55);
    PreviewOneLine(v.result(r), 45);
    OneLineConcat("(", a);
    OneLineConcat("(" + a, ") -> ");
    OneLineConcat("(" + a + ") -> ", b);
  }

  lemma {:induction false} ActionOneLine(r: Record, v: Views)
    requires OneLine(r.body.tool)
    ensures OneLine(Action(r, v))
  {
    TailOneLine(r, v);
    OneLineConcat(if r.body.tool == "" then "unknown" else r.body.tool, ActionTail(r, v));
  }

  ghost predicate OneLines(ls: seq<string>) {
    forall k {:trigger ls[k]} :: 0 <= k < |ls| ==> OneLine(ls[k])
  }

  ghost predicate OneLineBlocks(bs: seq<Block>) {
    forall k {:trigger bs[k]} :: 0 <= k < |bs| ==> OneLines(bs[k].lines)
  }

  /** Every recorded tool name is one line. */
  ghost predicate NamesOneLine(rs: seq<Record>) {
    forall k {:trigger rs[k]} :: 0 <= k < |rs| ==> OneLine(rs[k].body.tool)
  }

  lemma {:induction false} AddOneLine(bs: seq<Block>, step: int, line: string)
    requires OneLineBlocks(bs) && OneLine(line)
    ensures OneLineBlocks(AddLine(bs, step, line))
  {
    var cs := AddLine(bs, step, line);
    forall k | 0 <= k < |cs|
      ensures OneLines(cs[k].lines)
    {
      if k < |bs| {
        assert OneLines(bs[k].lines);
      }
    }
  }

  lemma {:induction false} ActionsOneLine(rs: seq<Record>, lo: int, hi: int, v: Views)
    requires NamesOneLine(rs)
    ensures OneLineBlocks(Actions(rs, lo, hi, v))
  {
    if rs != [] {
      var before, r := rs[..|rs| - 1], rs[|rs| - 1];
      assert forall k :: 0 <= k < |before| ==> before[k] == rs[k];
      ActionsOneLine(before, lo, hi, v);
      if lo <= r.body.step <= hi {
        ActionOneLine(r, v);
        AddOneLine(Actions(before, lo, hi, v), r.body.step, Action(r, v));
      }
    }
  }

  lemma {:induction false} JoinOneLine(ls: seq<string>, sep: string)
    requires OneLines(ls) && OneLine(sep)
    ensures OneLine(Join(ls, sep))
  {
    if |ls| > 1 {
      assert forall k :: 0 <= k < |ls[1..]| ==> ls[1..][k] == ls[k + 1];
      JoinOneLine(ls[1..], sep);
      OneLineConcat(ls[0], sep);
      OneLineConcat(ls[0] + sep, Join(ls[1..], sep));
    }
  }

  lemma {:induction false} StepHeadOneLine(step: int)
    ensures OneLine(StepHead(step)) && StepHead(step)[0] == '['
  {
    var n: nat := if step > 0 then step else 0;
    ParseDecimal(n);
    OneLineConcat("[Step ", Decimal(n));
    OneLineConcat("[Step " + Decimal(n), ": ");
  }

  lemma {:induction false} MicroLineOneLine(b: Block)
    requires OneLines(b.lines)
    ensures OneLine(MicroLine(b)) && MicroLine(b) != "" && MicroLine(b)[0] == '['
  {
    var line := StepHead(b.step) + Join(b.lines, " | ") + "]";
    StepHeadOneLine(b.step);
    JoinOneLine(b.lines, " | ");
    OneLineConcat(StepHead(b.step), Join(b.lines, " | "));
    OneLineConcat(StepHead(b.step) + Join(b.lines, " | "), "]");
    if |line| > MICRO_CHARS {
      PartOneLine(line, 0, MICRO_CHARS - |MICRO_CUT|);
      OneLineConcat(line[..MICRO_CHARS - |MICRO_CUT|], MICRO_CUT);
    }
  }

  lemma {:induction false} HeaderStarts()
    ensures TIER3_HEADER[0] == '#' && TIER2_HEADER[0] == '#' && ARTIFACTS_HEADER[0] == '#' && TIER2_EMPTY[0] == '('
  {}

  /** A line that starts with a bracket or a dash is no header. */
  lemma {:induction false} MarkedIsPlain(l: string, tier2: bool)
    requires l != "" && OneLine(l) && (l[0] == '[' || l[0] == '-')
    ensures PlainLine(l, tier2)
  {
    StripKeepsFirst(l);
    HeaderStarts();
  }

  /** With names on one line, so is the index, and no line of it is a header. */
  lemma {:induction false} IndexIsPlain(rs: seq<Record>, lo: int, hi: int, v: Views) returns (ls: seq<string>)
    requires NamesOneLine(rs)
    ensures ls == MicroIndexOf(rs, lo, hi, v) && PlainLines(ls, true)
  {
    var bs := Actions(rs, lo, hi, v);
    ls := MicroIndexOf(rs, lo, hi, v);
    ActionsOneLine(rs, lo, hi, v);
    forall k | 0 <= k < |bs|
      ensures PlainLine(MicroLine(bs[k]), true)
    {
      MicroLineOneLine(bs[k]);
      MarkedIsPlain(MicroLine(bs[k]), true);
    }
  }

  /** What holds of every item holds of the merged list. */
  lemma {:induction false} MergedAll(items: seq<string>, keep: string -> bool, good: string -> bool, n: nat)
    requires n <= |items| && forall k {:trigger items[k]} :: 0 <= k < |items| ==> good(items[k])
    ensures forall k {:trigger Merged(items, keep, n)[k]} :: 0 <= k < |Merged(items, keep, n)| ==>
      good(Merged(items, keep, n)[k])
  {
    if n > 0 {
      MergedAll(items, keep, good, n - 1);
    }
  }

  lemma {:induction false} MergedIsPlain(items: seq<string>, keep: string -> bool, n: nat)
    requires n <= |items| && PlainLines(items, false)
    ensures PlainLines(Merged(items, keep, n), false)
  {
    var good := (l: string) => PlainLine(l, false);
    MergedAll(items, keep, good, n);
    forall k | 0 <= k < |Merged(items, keep, n)|
      ensures PlainLine(Merged(items, keep, n)[k], false)
    {
      assert good(Merged(items, keep, n)[k]);
    }
  }

  // A name that spreads over several lines

  /** A tool name that holds a line which is a section header. */
  const BROKEN_NAME := "x" + NL + TIER3_HEADER + NL

  lemma {:induction false} HeaderCounts(ls: seq<string>, k: nat)
    requires k < |ls| && Classify(ls[k]).Tier3Header?
    ensures CountKind(ls, false) > 0
  {
    if k > 0 {
      assert ls[1..][k - 1] == ls[k];
      HeaderCounts(ls[1..], k - 1);
    }
  }

  lemma {:induction false} HeaderBetween(front: string, rest: string)
    ensures CountKind(Lines(front + NL + (TIER3_HEADER + NL + rest)), false) > 0
  {
    assert Seen("") == [];
    ViewNewline(front, TIER3_HEADER + NL + rest, Seen);
    ViewNewline(TIER3_HEADER, rest, Seen);
    Tier3HeaderIsALine();
    KindsOfReserved();
    var ls := Lines(front) + ([TIER3_HEADER] + Lines(rest));
    assert ls[|Lines(front)|] == TIER3_HEADER;
    HeaderCounts(ls, |Lines(front)|);
  }

  lemma {:induction false} Regrouped(a: string, x: string, h: string, b: string, c: string)
    ensures a + ((x + NL + h + NL) + b) + c == (a + x) + NL + (h + NL + (b + c))
  {}

  lemma {:induction false} BrokenText(front: string, tail: string)
    requires OneLine(front) && front != "" && front[0] == '['
    ensures var line := front + (BROKEN_NAME + tail) + "]";
      line != "" && Tight(line) && CountKind(Lines(line), false) > 0
  {
    Regrouped(front, "x", TIER3_HEADER, tail, "]");
    HeaderBetween(front + "x", tail + "]");
  }

  lemma {:induction false} BrokenAction(r: Record, v: Views)
    requires r.body.tool == BROKEN_NAME
    ensures Action(r, v) == BROKEN_NAME + ActionTail(r, v) && |BROKEN_NAME| < 43
  {
    assert |TIER3_HEADER| < 40;
  }

  /** The line of a step whose one call has such a name. */
  lemma {:induction false} BrokenLine(r: Record, v: Views) returns (line: string)
    requires r.body.tool == BROKEN_NAME && 0 <= r.body.step < 10
    ensures line == MicroLine(Block(r.body.step, [Action(r, v)]))
    ensures line != "" && Tight(line) && |line| <= TIER2_CHARS && CountKind(Lines(line), false) > 0
  {
    var front, tail := StepHead(r.body.step), ActionTail(r, v);
    TailOneLine(r, v);
    StepHeadOneLine(r.body.step);
    BrokenAction(r, v);
    BrokenText(front, tail);
    assert |front| < 20;
    assert Join([Action(r, v)], " | ") == Action(r, v);
    line := front + Action(r, v) + "]";
  }
}
