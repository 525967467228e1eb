/** The append-only, hash-chained trajectory of trajectory.py: decoding a file of record
    lines, and appending one complete call/result group. */
module Trajectory {
  import opened Text

  /** What a record says beside its id, when schema and types are in order. */
  datatype Body = Body(parent: Option<string>, step: int, groupEnd: bool, callId: string, tool: string,
                       arguments: string, result: string, failed: bool, executed: bool, artifact: Option<string>)

  datatype Record = Record(id: string, body: Body)

  /** One line of the file: blank, a record, or anything the decoder gives up on whatever
      its state (no JSON, another schema, a wrong type, a malformed artifact path). */
  datatype Line = Blank | Junk | Entry(record: Record)

  type Hash = Body -> string

  /** 64 lower-case hexadecimal digits. */
  predicate IsDigest(s: string) {
    |s| == 64 && forall k :: 0 <= k < |s| ==> '0' <= s[k] <= '9' || 'a' <= s[k] <= 'f'
  }

  const ARTIFACT_HEAD := "artifacts/out_."
  const ARTIFACT_TAIL := ".log"

  predicate IsArtifactPath(s: string) {
    && |s| == |ARTIFACT_HEAD| + 64 + |ARTIFACT_TAIL|
    && s[..|ARTIFACT_HEAD|] == ARTIFACT_HEAD && s[|ARTIFACT_HEAD| + 64..] == ARTIFACT_TAIL
    && IsDigest(s[|ARTIFACT_HEAD|..|ARTIFACT_HEAD| + 64])
  }

  predicate ArtifactInOrder(b: Body) {
    b.artifact.Some? ==> IsArtifactPath(b.artifact.value)
  }

  ghost predicate Digests(h: Hash) {
    forall b :: IsDigest(h(b))
  }

  /** The hash tells the records of the two lists apart wherever they differ. */
  ghost predicate NoCollision(h: Hash, a: seq<Record>, b: seq<Record>) {
    forall i, j {:trigger a[i], b[j]} :: 0 <= i < |a| && 0 <= j < |b| && h(a[i].body) == h(b[j].body) ==>
      a[i].body == b[j].body
  }

  // Decoding

  datatype Decoder = Decoder(records: seq<Record>, pending: seq<Record>, pendingStep: Option<int>,
                             parent: Option<string>, previous: int, invalid: bool)

  const FRESH := Decoder([], [], None, None, 0, false)

  /** The record continues the chain and the group the decoder is in. */
  predicate Continues(d: Decoder, r: Record, h: Hash) {
    && IsDigest(r.id) && r.body.parent == d.parent && h(r.body) == r.id && r.body.step >= 1
    && ArtifactInOrder(r.body)
    && (d.pendingStep.None? ==> r.body.step > d.previous)
    && (d.pendingStep.Some? ==> r.body.step == d.pendingStep.value)
  }

  function Accepted(d: Decoder, r: Record): Decoder {
    if r.body.groupEnd then
      d.(records := d.records + d.pending + [r], pending := [], pendingStep := None,
         parent := Some(r.id), previous := r.body.step)
    else
      d.(pending := d.pending + [r], pendingStep := Some(r.body.step), parent := Some(r.id))
  }

  function Feed(d: Decoder, l: Line, h: Hash): Decoder {
    if d.invalid then d
    else
      match l
      case Blank => d
      case Junk => d.(invalid := true)
      case Entry(r) => if Continues(d, r, h) then Accepted(d, r) else d.(invalid := true)
  }

  /** The decoder behind the first n lines. */
  function After(lines: seq<Line>, n: nat, h: Hash): Decoder
    requires n <= |lines|
  {
    if n == 0 then FRESH else Feed(After(lines, n - 1, h), lines[n - 1], h)
  }

  datatype Decoded = Decoded(records: seq<Record>, complete: bool)

  function Verdict(d: Decoder): Decoded {
    Decoded(d.records, !d.invalid && d.pending == [])
  }

  /** _decode_records. */
  function Decode(lines: seq<Line>, h: Hash): Decoded {
    Verdict(After(lines, |lines|, h))
  }

  lemma {:induction false} InvalidStays(lines: seq<Line>, m: nat, n: nat, h: Hash)
    requires m <= n <= |lines| && After(lines, m, h).invalid
    ensures After(lines, n, h) == After(lines, m, h)
    decreases n
  {
    if m < n {
      InvalidStays(lines, m, n - 1, h);
    }
  }

  method DecodeRecords(lines: seq<Line>, h: Hash) returns (decoded: Decoded)
    ensures decoded == Decode(lines, h)
  {
    var records, pending: seq<Record> := [], [];
    var pendingStep: Option<int>, parent: Option<string>, previous := None, None, 0;
    for i := 0 to |lines|
      invariant After(lines, i, h) == Decoder(records, pending, pendingStep, parent, previous, false)
    {
      var l := lines[i];
      var reached := Decoder(records, pending, pendingStep, parent, previous, false);
      if l.Junk? || (l.Entry? && !Continues(reached, l.record, h)) {
        InvalidStays(lines, i + 1, |lines|, h);
        return Decoded(records, false);
      }
      if l.Entry? {
        var r := l.record;
        if pendingStep.None? {
          pendingStep := Some(r.body.step);
        }
        pending := pending + [r];
        parent := Some(r.id);
        if r.body.groupEnd {
          records := records + pending;
          pending, previous, pendingStep := [], r.body.step, None;
        }
      }
    }
    decoded := Decoded(records, pending == []);
  }

  // Cutting a log

  function Entries(rs: seq<Record>): (ls: seq<Line>)
    ensures |ls| == |rs| && forall k :: 0 <= k < |ls| ==> ls[k] == Entry(rs[k])
  {
    seq(|rs|, k requires 0 <= k < |rs| => Entry(rs[k]))
  }

  /** The records among the first n lines. */
  function RecordsOf(lines: seq<Line>, n: nat): seq<Record>
    requires n <= |lines|
  {
    if n == 0 then []
    else if lines[n - 1].Entry? then RecordsOf(lines, n - 1) + [lines[n - 1].record]
    else RecordsOf(lines, n - 1)
  }

  /** The end of the last whole group among the first n lines. */
  function LastEnd(lines: seq<Line>, n: nat): (k: nat)
    requires n <= |lines|
    ensures k <= n
  {
    if n == 0 then 0
    else if lines[n - 1].Entry? && lines[n - 1].record.body.groupEnd then n
    else LastEnd(lines, n - 1)
  }

  /** A decoder that has met nothing invalid holds exactly the records before it: those up
      to the last group end as trusted, the others as pending. */
  lemma {:induction false} AfterHolds(lines: seq<Line>, n: nat, h: Hash)
    requires n <= |lines| && !After(lines, n, h).invalid
    ensures After(lines, n, h).records == RecordsOf(lines, LastEnd(lines, n))
    ensures RecordsOf(lines, n) == After(lines, n, h).records + After(lines, n, h).pending
    ensures After(lines, n, h).pendingStep.None? <==> After(lines, n, h).pending == []
  {
    if n > 0 {
      AfterHolds(lines, n - 1, h);
    }
  }

  lemma {:induction false} ValidBefore(lines: seq<Line>, m: nat, n: nat, h: Hash)
    requires m <= n <= |lines| && !After(lines, n, h).invalid
    ensures !After(lines, m, h).invalid
  {
    if After(lines, m, h).invalid {
      InvalidStays(lines, m, n, h);
    }
  }

  lemma {:induction false} AfterPrefix(lines: seq<Line>, k: nat, n: nat, h: Hash)
    requires n <= k <= |lines|
    ensures After(lines[..k], n, h) == After(lines, n, h)
  {
    if n > 0 {
      AfterPrefix(lines, k, n - 1, h);
    }
  }

  /** Decoding any line prefix of a sound log gives exactly the whole groups before the
      cut, and is complete only if the cut is at a group boundary. */
  lemma {:induction false} DecodePrefix(lines: seq<Line>, k: nat, h: Hash)
    requires k <= |lines| && Decode(lines, h).complete
    ensures Decode(lines[..k], h).records == RecordsOf(lines, LastEnd(lines, k))
    ensures Decode(lines[..k], h).complete <==> RecordsOf(lines, k) == RecordsOf(lines, LastEnd(lines, k))
  {
    AfterPrefix(lines, k, k, h);
    ValidBefore(lines, k, |lines|, h);
    AfterHolds(lines, k, h);
  }

  // Appending to a log

  lemma {:induction false} AfterAppend(a: seq<Line>, b: seq<Line>, n: nat, h: Hash)
    requires n <= |a|
    ensures After(a + b, n, h) == After(a, n, h)
  {
    if n > 0 {
      AfterAppend(a, b, n - 1, h);
    }
  }

  /** One whole group: chained from parent, one step, ended by its last record only. */
  ghost predicate Chained(rs: seq<Record>, parent: Option<string>, step: int, h: Hash) {
    forall k: nat {:trigger ChainedAt(rs, parent, step, h, k)} :: k < |rs| ==> ChainedAt(rs, parent, step, h, k)
  }

  /** The k-th record fits into a group of n that continues from parent. */
  ghost predicate ChainedAt(rs: seq<Record>, parent: Option<string>, step: int, h: Hash, k: nat)
    requires k < |rs|
  {
    && rs[k].body.step == step && h(rs[k].body) == rs[k].id && IsDigest(rs[k].id)
    && ArtifactInOrder(rs[k].body)
    && (rs[k].body.groupEnd <==> k == |rs| - 1)
    && rs[k].body.parent == if k == 0 then parent else Some(rs[k - 1].id)
  }

  /** The decoder d between groups once it has read the first n records of a group. */
  function Within(d: Decoder, rs: seq<Record>, n: nat, step: int): Decoder
    requires n <= |rs|
  {
    if n == 0 then d
    else if n < |rs| then d.(pending := rs[..n], pendingStep := Some(step), parent := Some(rs[n - 1].id))
    else d.(records := d.records + rs, parent := Some(rs[n - 1].id), previous := step)
  }

  ghost predicate Between(d: Decoder, step: int) {
    !d.invalid && d.pending == [] && d.pendingStep.None? && step >= 1 && step > d.previous
  }

  lemma {:induction false} FeedOne(d: Decoder, rs: seq<Record>, n: nat, step: int, h: Hash)
    requires n < |rs| && Between(d, step) && ChainedAt(rs, d.parent, step, h, n)
    ensures Feed(Within(d, rs, n, step), Entry(rs[n]), h) == Within(d, rs, n + 1, step)
  {
    var w := Within(d, rs, n, step);
    assert Continues(w, rs[n], h);
    assert rs[..n + 1] == rs[..n] + [rs[n]];
    if n + 1 == |rs| {
      assert rs[..n + 1] == rs;
      assert d.records + w.pending + [rs[n]] == d.records + rs;
    }
  }

  lemma {:induction false} FeedGroup(lines: seq<Line>, rs: seq<Record>, n: nat, step: int, h: Hash)
    requires n <= |rs| && Between(After(lines, |lines|, h), step)
    requires Chained(rs, After(lines, |lines|, h).parent, step, h)
    ensures After(lines + Entries(rs), |lines| + n, h) == Within(After(lines, |lines|, h), rs, n, step)
  {
    if n == 0 {
      AfterAppend(lines, Entries(rs), |lines|, h);
    } else {
      FeedGroup(lines, rs, n - 1, step, h);
      assert ChainedAt(rs, After(lines, |lines|, h).parent, step, h, n - 1);
      FeedOne(After(lines, |lines|, h), rs, n - 1, step, h);
      assert (lines + Entries(rs))[|lines| + n - 1] == Entry(rs[n - 1]);
    }
  }

  function LastId(rs: seq<Record>): Option<string> {
    if rs == [] then None else Some(rs[|rs| - 1].id)
  }

  function LastStep(rs: seq<Record>): int {
    if rs == [] then 0 else rs[|rs| - 1].body.step
  }

  /** Between groups the decoder continues from its last trusted record. */
  lemma {:induction false} BetweenGroups(lines: seq<Line>, n: nat, h: Hash)
    requires n <= |lines| && !After(lines, n, h).invalid
    ensures After(lines, n, h).previous == LastStep(After(lines, n, h).records)
    ensures After(lines, n, h).parent == LastId(After(lines, n, h).records + After(lines, n, h).pending)
  {
    if n > 0 {
      BetweenGroups(lines, n - 1, h);
      AfterHolds(lines, n - 1, h);
    }
  }

  /** Appending a whole later group to a sound log decodes to the old records followed by
      the group, complete; a torn append leaves just the old records. */
  lemma {:induction false} DecodeAppended(lines: seq<Line>, rs: seq<Record>, n: nat, step: int, h: Hash)
    requires Decode(lines, h).complete && n <= |rs|
    requires step >= 1 && step > LastStep(Decode(lines, h).records)
    requires Chained(rs, LastId(Decode(lines, h).records), step, h)
    ensures n == |rs| ==> Decode(lines + Entries(rs), h) == Decoded(Decode(lines, h).records + rs, true)
    ensures n < |rs| ==> Decode(lines + Entries(rs[..n]), h) == Decoded(Decode(lines, h).records, n == 0)
  {
    SoundIsBetween(lines, step, h);
    FeedGroup(lines, rs, n, step, h);
    if n < |rs| {
      TornLines(lines, rs, n, h);
    } else {
      assert |lines + Entries(rs)| == |lines| + n;
      assert n == 0 ==> Decode(lines, h).records + rs == Decode(lines, h).records;
    }
  }

  lemma {:induction false} SoundIsBetween(lines: seq<Line>, step: int, h: Hash)
    requires Decode(lines, h).complete && step >= 1 && step > LastStep(Decode(lines, h).records)
    ensures Between(After(lines, |lines|, h), step)
    ensures After(lines, |lines|, h).parent == LastId(Decode(lines, h).records)
  {
    var d := After(lines, |lines|, h);
    BetweenGroups(lines, |lines|, h);
    AfterHolds(lines, |lines|, h);
    assert d.records + d.pending == d.records;
  }

  lemma {:induction false} TornLines(lines: seq<Line>, rs: seq<Record>, n: nat, h: Hash)
    requires n <= |rs|
    ensures After(lines + Entries(rs[..n]), |lines| + n, h) == After(lines + Entries(rs), |lines| + n, h)
  {
    var ls := lines + Entries(rs);
    assert ls[..|lines| + n] == lines + Entries(rs[..n]);
    AfterPrefix(ls, |lines| + n, |lines| + n, h);
  }

  lemma {:induction false} JunkAtEnd(lines: seq<Line>, h: Hash)
    ensures Decode(lines + [Junk], h) == Decoded(Decode(lines, h).records, false)
  {
    AfterAppend(lines, [Junk], |lines|, h);
  }

  // append_tool_group

  datatype ToolCall = ToolCall(id: Option<string>, name: string, arguments: string, failed: bool,
                               artifact: Option<string>)

  /** The executed ids still unclaimed once n calls have been recorded. */
  function Unclaimed(calls: seq<ToolCall>, ids: set<string>, n: nat): set<string>
    requires n <= |calls|
  {
    if n == 0 then ids - {""}
    else if calls[n - 1].id.Some? then Unclaimed(calls, ids, n - 1) - {calls[n - 1].id.value}
    else Unclaimed(calls, ids, n - 1)
  }

  predicate Claims(c: ToolCall, unclaimed: set<string>) {
    c.id.Some? && c.id.value != "" && c.id.value in unclaimed
  }

  /** A record counts as executed exactly if its id was executed and no earlier call of
      the group carries the same id. */
  lemma {:induction false} ClaimsIff(calls: seq<ToolCall>, ids: set<string>, n: nat)
    requires n < |calls|
    ensures Claims(calls[n], Unclaimed(calls, ids, n)) <==>
      calls[n].id.Some? && calls[n].id.value != "" && calls[n].id.value in ids
      && forall k :: 0 <= k < n ==> calls[k].id != calls[n].id
  {
    if calls[n].id.Some? {
      UnclaimedIff(calls, ids, n, calls[n].id.value);
    }
  }

  lemma {:induction false} UnclaimedIff(calls: seq<ToolCall>, ids: set<string>, n: nat, id: string)
    requires n <= |calls|
    ensures id in Unclaimed(calls, ids, n) <==>
      id in ids && id != "" && forall k :: 0 <= k < n ==> calls[k].id != Some(id)
  {
    if n > 0 {
      UnclaimedIff(calls, ids, n - 1, id);
    }
  }

  function BodyOf(parent: Option<string>, step: int, last: bool, c: ToolCall, result: string, executed: bool): Body {
    Body(parent, step, last, if c.id.Some? then c.id.value else "", c.name, c.arguments, result, c.failed, executed,
         if executed && c.artifact.Some? && IsArtifactPath(c.artifact.value) then c.artifact else None)
  }

  /** What one append is given. */
  datatype Group = Group(step: int, calls: seq<ToolCall>, results: seq<string>, executed: set<string>)

  /** The first n records written for a group behind `parent`. */
  function GroupRecords(g: Group, parent: Option<string>, h: Hash, n: nat): (rs: seq<Record>)
    requires n <= |g.calls| == |g.results|
    ensures |rs| == n
  {
    if n == 0 then []
    else
      var rs := GroupRecords(g, parent, h, n - 1);
      var body := BodyOf(if n == 1 then parent else Some(rs[n - 2].id), g.step, n == |g.calls|, g.calls[n - 1],
                         g.results[n - 1], Claims(g.calls[n - 1], Unclaimed(g.calls, g.executed, n - 1)));
      rs + [Record(h(body), body)]
  }

  ghost predicate WrittenAt(g: Group, parent: Option<string>, h: Hash, rs: seq<Record>, k: nat)
    requires k < |rs|
  {
    && rs[k].body.step == g.step && h(rs[k].body) == rs[k].id && IsDigest(rs[k].id)
    && ArtifactInOrder(rs[k].body)
    && (rs[k].body.groupEnd <==> k == |g.calls| - 1)
    && rs[k].body.parent == if k == 0 then parent else Some(rs[k - 1].id)
  }

  lemma {:induction false} GroupRecordsWritten(g: Group, parent: Option<string>, h: Hash, n: nat, k: nat)
    requires k < n <= |g.calls| == |g.results| && Digests(h)
    ensures WrittenAt(g, parent, h, GroupRecords(g, parent, h, n), k)
  {
    var before, rs := GroupRecords(g, parent, h, n - 1), GroupRecords(g, parent, h, n);
    assert forall j :: 0 <= j < n - 1 ==> rs[j] == before[j];
    if k < n - 1 {
      GroupRecordsWritten(g, parent, h, n - 1, k);
    }
  }

  lemma {:induction false} WholeGroupChained(g: Group, parent: Option<string>, h: Hash)
    requires |g.calls| == |g.results| && Digests(h)
    ensures Chained(GroupRecords(g, parent, h, |g.calls|), parent, g.step, h)
  {
    var rs := GroupRecords(g, parent, h, |g.calls|);
    forall k: nat | k < |rs|
      ensures ChainedAt(rs, parent, g.step, h, k)
    {
      GroupRecordsWritten(g, parent, h, |g.calls|, k);
    }
  }

  /** How the write goes: to the end, or failing once some lines (and perhaps part of
      another one) are in the file. All lines may be in it when the sync fails. */
  datatype Fault = NoFault | Fails(written: nat, torn: bool)

  datatype Outcome = Appended(records: seq<Record>) | Refused | WriteFailed

  predicate Acceptable(lines: seq<Line>, g: Group, h: Hash) {
    && g.step >= 1 && |g.calls| == |g.results|
    && Decode(lines, h).complete
    && (g.calls != [] ==> g.step > LastStep(Decode(lines, h).records))
  }

  function Written(rs: seq<Record>, fault: Fault): seq<Line> {
    match fault
    case NoFault => Entries(rs)
    case Fails(n, torn) =>
      if n < |rs| then Entries(rs[..n]) + (if torn then [Junk] else []) else Entries(rs)
  }

  function NewRecords(lines: seq<Line>, g: Group, h: Hash): seq<Record>
    requires |g.calls| == |g.results|
  {
    GroupRecords(g, LastId(Decode(lines, h).records), h, |g.calls|)
  }

  /** The file and the answer of append_tool_group. */
  function AppendTo(lines: seq<Line>, g: Group, h: Hash, fault: Fault): (seq<Line>, Outcome) {
    if !Acceptable(lines, g, h) then (lines, Refused)
    else if g.calls == [] then (lines, Appended([]))
    else
      var rs := NewRecords(lines, g, h);
      (lines + Written(rs, fault), if fault.NoFault? then Appended(rs) else WriteFailed)
  }

  /** Whatever happens to an append, the trusted records are the old ones, or the old ones
      followed by the whole group; after a success they are the latter, the log is sound,
      and the group is as asked for. Only a failed write can leave the log unsound. */
  lemma {:induction false} AppendIsAtomic(lines: seq<Line>, g: Group, h: Hash, fault: Fault)
    requires Digests(h)
    ensures var (after, outcome) := AppendTo(lines, g, h, fault);
      var before, now := Decode(lines, h), Decode(after, h);
      && (outcome.Appended? ==>
            now == Decoded(before.records + outcome.records, true) && |outcome.records| == |g.calls|)
      && (outcome.Refused? ==> after == lines)
      && (outcome.WriteFailed? ==>
            now.records == before.records || now == Decoded(before.records + NewRecords(lines, g, h), true))
  {
    var before := Decode(lines, h);
    if Acceptable(lines, g, h) {
      if g.calls == [] {
        assert before.records + [] == before.records;
      } else {
        var rs := NewRecords(lines, g, h);
        WholeGroupChained(g, LastId(before.records), h);
        var n := if fault.NoFault? || fault.written >= |rs| then |rs| else fault.written;
        DecodeAppended(lines, rs, n, g.step, h);
        if n < |rs| && fault.torn {
          JunkAtEnd(lines + Entries(rs[..n]), h);
          assert lines + (Entries(rs[..n]) + [Junk]) == lines + Entries(rs[..n]) + [Junk];
        } else if n < |rs| {
          assert Entries(rs[..n]) + [] == Entries(rs[..n]);
        }
      }
    }
  }

  lemma {:induction false} UnclaimedStep(calls: seq<ToolCall>, ids: set<string>, n: nat)
    requires n < |calls|
    ensures var u := Unclaimed(calls, ids, n);
            Unclaimed(calls, ids, n + 1) == if Claims(calls[n], u) then u - {calls[n].id.value} else u
  {
    UnclaimedIff(calls, ids, n, "");
  }

  method BuildRecords(g: Group, last: Option<string>, h: Hash) returns (records: seq<Record>)
    requires |g.calls| == |g.results|
    ensures records == GroupRecords(g, last, h, |g.calls|)
  {
    var parent, unclaimed := last, g.executed - {""};
    records := [];
    for i := 0 to |g.calls|
      invariant records == GroupRecords(g, last, h, i)
      invariant unclaimed == Unclaimed(g.calls, g.executed, i)
      invariant parent == if i == 0 then last else Some(records[i - 1].id)
    {
      var c := g.calls[i];
      UnclaimedStep(g.calls, g.executed, i);
      var executed := Claims(c, unclaimed);
      var body := BodyOf(parent, g.step, i == |g.calls| - 1, c, g.results[i], executed);
      if executed {
        unclaimed := unclaimed - {c.id.value};
      }
      records := records + [Record(h(body), body)];
      parent := Some(h(body));
    }
  }

  /** The first step whose group is missing, once the group of a step is. */
  function LowerGap(gap: Option<int>, step: int): Option<int> {
    if gap.Some? && gap.value < step then gap else Some(step)
  }

  /** Tier 3 of a summary made at this step ends thirty steps back, and in front of the gap. */
  function Tier3End(step: int, gap: Option<int>): int {
    var back := if step > 30 then step - 30 else 0;
    if gap.Some? && gap.value - 1 < back then gap.value - 1 else back
  }

  class TrajectoryFile {
    var lines: seq<Line>

    constructor ()
      ensures lines == []
    {
      lines := [];
    }

    method AppendToolGroup(g: Group, h: Hash, fault: Fault) returns (outcome: Outcome)
      modifies this
      ensures (lines, outcome) == AppendTo(old(lines), g, h, fault)
    {
      if g.step < 1 || |g.calls| != |g.results| {
        return Refused;
      }
      var prior := DecodeRecords(lines, h);
      var count := |prior.records|;
      if !prior.complete || (g.calls != [] && count > 0 && g.step <= prior.records[count - 1].body.step) {
        return Refused;
      }
      var records := BuildRecords(g, LastId(prior.records), h);
      if records == [] {
        return Appended([]);
      }
      lines := lines + Written(records, fault);
      outcome := if fault.NoFault? then Appended(records) else WriteFailed;
    }
  }
}
