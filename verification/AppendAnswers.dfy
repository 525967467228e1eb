/** What an append to the trajectory answers, and what its records say of the calls. */
module AppendAnswers {
  import opened Text
  import opened Trajectory
  import opened TrajectoryIntegrity
  import opened Watermark

  /** The call counts as executed: it carries an executed id that no earlier call carries. */
  ghost predicate Counts(g: Group, k: nat)
    requires k < |g.calls|
  {
    && g.calls[k].id.Some? && g.calls[k].id.value != "" && g.calls[k].id.value in g.executed
    && forall j :: 0 <= j < k ==> g.calls[j].id != g.calls[k].id
  }

  /** Record r says of call k of the group what happened. */
  ghost predicate Tells(r: Record, g: Group, k: nat)
    requires k < |g.calls| == |g.results|
  {
    && r.body.step == g.step
    && r.body.callId == (if g.calls[k].id.None? then "" else g.calls[k].id.value)
    && r.body.tool == g.calls[k].name && r.body.arguments == g.calls[k].arguments
    && r.body.result == g.results[k] && r.body.failed == g.calls[k].failed
    && (r.body.executed <==> Counts(g, k))
    && (r.body.artifact.Some? <==>
          Counts(g, k) && g.calls[k].artifact.Some? && IsArtifactPath(g.calls[k].artifact.value))
    && (r.body.artifact.Some? ==> r.body.artifact == g.calls[k].artifact)
  }

  lemma {:induction false} GroupTells(g: Group, parent: Option<string>, h: Hash, n: nat, k: nat)
    requires k < n <= |g.calls| == |g.results|
    ensures Tells(GroupRecords(g, parent, h, n)[k], g, k)
  {
    if k < n - 1 {
      GroupTells(g, parent, h, n - 1, k);
      assert GroupRecords(g, parent, h, n)[k] == GroupRecords(g, parent, h, n - 1)[k];
    } else {
      ClaimsIff(g.calls, g.executed, k);
    }
  }

  /** A successful append records every call with its own arguments, result and outcome, in
      order, under the hash of its record, each record naming the one before it. */
  lemma {:induction false} AppendTells(lines: seq<Line>, g: Group, h: Hash, fault: Fault, k: nat)
    requires Digests(h) && AppendTo(lines, g, h, fault).1.Appended? && k < |g.calls|
    ensures var rs, before := AppendTo(lines, g, h, fault).1.records, Decode(lines, h).records;
      && |rs| == |g.calls| == |g.results| && Tells(rs[k], g, k) && rs[k].id == h(rs[k].body)
      && (rs[k].body.groupEnd <==> k == |g.calls| - 1)
      && rs[k].body.parent == (if k > 0 then Some(rs[k - 1].id)
                               else if before == [] then None else Some(before[|before| - 1].id))
      && AppendTo(lines, g, h, fault).0 == lines + Entries(rs)
  {
    var parent := LastId(Decode(lines, h).records);
    GroupTells(g, parent, h, |g.calls|, k);
    GroupRecordsWritten(g, parent, h, |g.calls|, k);
  }

  /** An append is refused exactly if its step is not positive, results do not match calls,
      the log is unsound, or a call would not come behind every trusted record. */
  lemma {:induction false} AppendRefusedIff(lines: seq<Line>, g: Group, h: Hash, fault: Fault)
    ensures var (after, outcome) := AppendTo(lines, g, h, fault);
      && (outcome.Refused? <==>
            || g.step < 1 || |g.calls| != |g.results| || !Decode(lines, h).complete
            || (g.calls != [] && exists k ::
                  0 <= k < |Decode(lines, h).records| && Decode(lines, h).records[k].body.step >= g.step))
      && (outcome.Refused? ==> after == lines)
      && (outcome.WriteFailed? <==> !outcome.Refused? && g.calls != [] && fault != NoFault)
  {
    var rs := Decode(lines, h).records;
    AfterAscending(lines, |lines|, h);
    if rs != [] {
      assert forall k :: 0 <= k < |rs| ==> rs[k].body.step <= rs[|rs| - 1].body.step;
    }
  }

  // A write that fails

  lemma {:induction false} TornLeaves(lines: seq<Line>, rs: seq<Record>, n: nat, torn: bool, step: int, h: Hash)
    requires Decode(lines, h).complete && n < |rs| && step >= 1 && step > LastStep(Decode(lines, h).records)
    requires Chained(rs, LastId(Decode(lines, h).records), step, h)
    ensures var after := lines + (Entries(rs[..n]) + if torn then [Junk] else []);
      Decode(after, h) == Decoded(Decode(lines, h).records, n == 0 && !torn)
  {
    DecodeAppended(lines, rs, n, step, h);
    var part := Entries(rs[..n]);
    if torn {
      JunkAtEnd(lines + part, h);
      assert lines + (part + [Junk]) == lines + part + [Junk];
    } else {
      assert part + [] == part;
    }
  }

  /** A failed write leaves a sound log, to which can be appended, exactly if all of its lines
      or nothing at all came into the file; the old records are trusted in any case. */
  lemma {:induction false} SoundAfterFailureIff(lines: seq<Line>, g: Group, h: Hash, written: nat, torn: bool)
    requires Digests(h) && AppendTo(lines, g, h, Fails(written, torn)).1.WriteFailed?
    ensures var before, now := Decode(lines, h), Decode(AppendTo(lines, g, h, Fails(written, torn)).0, h);
      && (now.complete <==> written >= |g.calls| || (written == 0 && !torn))
      && |now.records| == |before.records| + (if written >= |g.calls| then |g.calls| else 0)
      && before.records == now.records[..|before.records|]
  {
    var rs, before := NewRecords(lines, g, h), Decode(lines, h);
    WholeGroupChained(g, LastId(before.records), h);
    if written < |rs| {
      TornLeaves(lines, rs, written, torn, g.step, h);
    } else {
      DecodeAppended(lines, rs, |rs|, g.step, h);
    }
  }

  // What a sound log is

  /** Record k is a valid one behind those before it: under its own hash, named as parent by
      the next, in a group of one step, each group of a later step than the one before. */
  ghost predicate FitsAt(rs: seq<Record>, k: nat, h: Hash)
    requires k < |rs|
  {
    var b := rs[k].body;
    && IsDigest(rs[k].id) && h(b) == rs[k].id && ArtifactInOrder(b)
    && b.parent == (if k == 0 then None else Some(rs[k - 1].id))
    && (if k == 0 then b.step >= 1
        else if rs[k - 1].body.groupEnd then b.step > rs[k - 1].body.step
        else b.step == rs[k - 1].body.step)
  }

  ghost predicate AllFit(rs: seq<Record>, h: Hash) {
    forall k: nat {:trigger FitsAt(rs, k, h)} :: k < |rs| ==> FitsAt(rs, k, h)
  }

  lemma {:induction false} AllFitMore(rs: seq<Record>, r: Record, h: Hash)
    ensures AllFit(rs + [r], h) <==> AllFit(rs, h) && FitsAt(rs + [r], |rs|, h)
  {
    var all := rs + [r];
    forall k: nat | k < |rs|
      ensures FitsAt(all, k, h) <==> FitsAt(rs, k, h)
    {
      assert all[k] == rs[k] && (k > 0 ==> all[k - 1] == rs[k - 1]);
    }
  }

  /** The decoder stands behind these records. */
  predicate Stands(d: Decoder, rs: seq<Record>) {
    && d.parent == LastId(rs)
    && (rs == [] ==> d.pendingStep.None? && d.previous == 0)
    && (rs != [] ==>
          var b := rs[|rs| - 1].body;
          if b.groupEnd then d.pendingStep.None? && d.previous == b.step else d.pendingStep == Some(b.step))
  }

  lemma {:induction false} ContinuesIff(d: Decoder, rs: seq<Record>, r: Record, h: Hash)
    requires Stands(d, rs) && (rs != [] ==> rs[|rs| - 1].body.step >= 1)
    ensures Continues(d, r, h) <==> FitsAt(rs + [r], |rs|, h)
    ensures Stands(Accepted(d, r), rs + [r])
  {}

  lemma {:induction false} FitsArePositive(rs: seq<Record>, h: Hash, k: nat)
    requires AllFit(rs, h) && k < |rs|
    ensures rs[k].body.step >= 1
  {
    assert FitsAt(rs, k, h);
    if k > 0 {
      FitsArePositive(rs, h, k - 1);
    }
  }

  predicate NoJunk(lines: seq<Line>, n: nat)
    requires n <= |lines|
  {
    forall i :: 0 <= i < n ==> !lines[i].Junk?
  }

  lemma {:induction false} DecoderIs(lines: seq<Line>, n: nat, h: Hash) returns (d: Decoder, rs: seq<Record>)
    requires n <= |lines|
    ensures d == After(lines, n, h) && rs == RecordsOf(lines, n)
    ensures !d.invalid <==> NoJunk(lines, n) && AllFit(rs, h)
    ensures !d.invalid ==> Stands(d, rs)
  {
    if n == 0 {
      d, rs := FRESH, [];
    } else {
      var e, before := DecoderIs(lines, n - 1, h);
      d, rs := After(lines, n, h), RecordsOf(lines, n);
      if lines[n - 1].Entry? {
        AllFitMore(before, lines[n - 1].record, h);
        if !e.invalid {
          if before != [] {
            FitsArePositive(before, h, |before| - 1);
          }
          ContinuesIff(e, before, lines[n - 1].record, h);
        }
      }
    }
  }

  /** A log is sound if and only if it has no broken line, its records fit one behind the
      other, and the last of them ends its group. */
  lemma {:induction false} SoundIff(lines: seq<Line>, h: Hash)
    ensures var rs := RecordsOf(lines, |lines|);
      Decode(lines, h).complete <==>
        NoJunk(lines, |lines|) && AllFit(rs, h) && (rs != [] ==> rs[|rs| - 1].body.groupEnd)
  {
    var d, rs := DecoderIs(lines, |lines|, h);
    if !d.invalid {
      AfterHolds(lines, |lines|, h);
    }
  }

  lemma {:induction false} TrustedAre(lines: seq<Line>, n: nat, h: Hash) returns (m: nat)
    requires n <= |lines|
    ensures m <= n && NoJunk(lines, m) && AllFit(RecordsOf(lines, m), h)
    ensures m < n ==> lines[m].Junk? || !AllFit(RecordsOf(lines, m + 1), h)
    ensures After(lines, n, h).records == RecordsOf(lines, LastEnd(lines, m))
  {
    var d, rs := DecoderIs(lines, n, h);
    if !d.invalid {
      m := n;
      AfterHolds(lines, n, h);
    } else {
      m := TrustedAre(lines, n - 1, h);
      var e, before := DecoderIs(lines, n - 1, h);
    }
  }

  /** Of any log the trusted records are the whole groups in front of its first line that is
      broken or does not fit. */
  lemma {:induction false} TrustedLog(lines: seq<Line>, h: Hash) returns (m: nat)
    ensures m <= |lines| && NoJunk(lines, m) && AllFit(RecordsOf(lines, m), h)
    ensures m < |lines| ==> lines[m].Junk? || !AllFit(RecordsOf(lines, m + 1), h)
    ensures Decode(lines, h).records == RecordsOf(lines, LastEnd(lines, m))
  {
    m := TrustedAre(lines, |lines|, h);
  }
}
