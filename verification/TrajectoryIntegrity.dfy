/** What the hash chain of a trajectory guarantees: rewinding, uniqueness, tampering. */
module TrajectoryIntegrity {
  import opened Text
  import opened Trajectory

  // Rewinding

  /** The records of steps up to s. */
  function KeepUpTo(rs: seq<Record>, s: int): seq<Record> {
    if rs == [] then []
    else if rs[|rs| - 1].body.step <= s then KeepUpTo(rs[..|rs| - 1], s) + [rs[|rs| - 1]]
    else KeepUpTo(rs[..|rs| - 1], s)
  }

  /** Where a resumed run goes on: behind what is recorded, but not behind the gap. */
  function ResumeCursor(next: int, gap: Option<int>, last: int): int {
    var behind := if last != 0 && last + 1 > next then last + 1 else next;
    if gap.Some? && gap.value < behind then gap.value else behind
  }

  ghost predicate StepsUpTo(rs: seq<Record>, s: int) {
    forall k {:trigger rs[k]} :: 0 <= k < |rs| ==> rs[k].body.step <= s
  }

  ghost predicate StepsAre(rs: seq<Record>, s: int) {
    forall k {:trigger rs[k]} :: 0 <= k < |rs| ==> rs[k].body.step == s
  }

  lemma {:induction false} AfterSteps(lines: seq<Line>, n: nat, h: Hash)
    requires n <= |lines|
    ensures var d := After(lines, n, h);
      && StepsUpTo(d.records, d.previous)
      && (d.pendingStep.None? ==> d.pending == [])
      && (d.pendingStep.Some? ==> d.pendingStep.value > d.previous && StepsAre(d.pending, d.pendingStep.value))
  {
    if n > 0 {
      AfterSteps(lines, n - 1, h);
    }
  }

  lemma {:induction false} KeepAll(rs: seq<Record>, s: int)
    requires StepsUpTo(rs, s)
    ensures KeepUpTo(rs, s) == rs
  {
    if rs != [] {
      KeepAll(rs[..|rs| - 1], s);
    }
  }

  /** Records behind s are dropped, whatever stands before them. */
  lemma {:induction false} KeepNone(a: seq<Record>, b: seq<Record>, s: int)
    requires forall k {:trigger b[k]} :: 0 <= k < |b| ==> b[k].body.step > s
    ensures KeepUpTo(a + b, s) == KeepUpTo(a, s)
  {
    if b == [] {
      assert a + b == a;
    } else {
      var m := a + b;
      assert m[..|m| - 1] == a + b[..|b| - 1] && m[|m| - 1] == b[|b| - 1];
      KeepNone(a, b[..|b| - 1], s);
    }
  }

  /** Blank lines do not matter. */
  lemma {:induction false} WithoutBlanks(lines: seq<Line>, n: nat, h: Hash)
    requires n <= |lines| && !After(lines, n, h).invalid
    ensures var rs := RecordsOf(lines, n); After(Entries(rs), |rs|, h) == After(lines, n, h)
  {
    if n > 0 {
      WithoutBlanks(lines, n - 1, h);
      var rs, before := RecordsOf(lines, n), RecordsOf(lines, n - 1);
      if lines[n - 1].Entry? {
        assert Entries(rs) == Entries(before) + [Entry(lines[n - 1].record)];
        AfterAppend(Entries(before), [Entry(lines[n - 1].record)], |before|, h);
      }
    }
  }

  /** Between groups, writing the trusted records down again gives a sound log of them. */
  lemma {:induction false} Rewritten(lines: seq<Line>, n: nat, h: Hash)
    requires n <= |lines| && !After(lines, n, h).invalid && After(lines, n, h).pending == []
    ensures Decode(Entries(After(lines, n, h).records), h) == Decoded(After(lines, n, h).records, true)
  {
    WithoutBlanks(lines, n, h);
    AfterHolds(lines, n, h);
    var d := After(lines, n, h);
    assert d.records + d.pending == d.records;
  }

  lemma {:induction false} FreshLog(h: Hash)
    ensures Decode(Entries([]), h) == Decoded([], true)
  {}

  /** What a rewind to step s leaves is sound. */
  lemma {:induction false} RewindAt(lines: seq<Line>, n: nat, s: int, h: Hash)
    requires n <= |lines| && !After(lines, n, h).invalid
    ensures var kept := KeepUpTo(After(lines, n, h).records, s); Decode(Entries(kept), h) == Decoded(kept, true)
  {
    if n == 0 {
      FreshLog(h);
    } else {
      ValidBefore(lines, n - 1, n, h);
      RewindAt(lines, n - 1, s, h);
      var d, e := After(lines, n - 1, h), After(lines, n, h);
      if e.records != d.records {
        var r := lines[n - 1].record;
        AfterSteps(lines, n - 1, h);
        AfterSteps(lines, n, h);
        if s < r.body.step {
          assert e.records == d.records + (d.pending + [r]);
          KeepNone(d.records, d.pending + [r], s);
        } else {
          KeepAll(e.records, s);
          Rewritten(lines, n, h);
        }
      }
    }
  }

  /** Keeping only the records of steps up to s decodes completely, to those records. */
  lemma {:induction false} RewindIsSound(lines: seq<Line>, s: int, h: Hash)
    requires Decode(lines, h).complete
    ensures var kept := KeepUpTo(Decode(lines, h).records, s); Decode(Entries(kept), h) == Decoded(kept, true)
  {
    RewindAt(lines, |lines|, s, h);
  }

  // The chain

  ghost predicate LinkedAt(rs: seq<Record>, h: Hash, k: nat)
    requires k < |rs|
  {
    h(rs[k].body) == rs[k].id && rs[k].body.parent == if k == 0 then None else Some(rs[k - 1].id)
  }

  ghost predicate Chain(rs: seq<Record>, h: Hash) {
    forall k: nat {:trigger LinkedAt(rs, h, k)} :: k < |rs| ==> LinkedAt(rs, h, k)
  }

  lemma {:induction false} ChainMore(rs: seq<Record>, r: Record, h: Hash)
    requires Chain(rs, h) && h(r.body) == r.id && r.body.parent == LastId(rs)
    ensures Chain(rs + [r], h)
  {
    forall k: nat | k < |rs| + 1
      ensures LinkedAt(rs + [r], h, k)
    {
      assert k < |rs| ==> LinkedAt(rs, h, k);
    }
  }

  /** Everything a decoder has read is one chain. */
  lemma {:induction false} AfterChain(lines: seq<Line>, n: nat, h: Hash)
    requires n <= |lines|
    ensures var d := After(lines, n, h);
      Chain(d.records + d.pending, h) && d.parent == LastId(d.records + d.pending)
  {
    if n == 0 {
      assert FRESH.records + FRESH.pending == [];
    } else {
      AfterChain(lines, n - 1, h);
      var d, e := After(lines, n - 1, h), After(lines, n, h);
      if e.parent != d.parent || e.records + e.pending != d.records + d.pending {
        var r := lines[n - 1].record;
        ChainMore(d.records + d.pending, r, h);
        assert e.records + e.pending == d.records + d.pending + [r];
      }
    }
  }

  lemma {:induction false} ChainPrefix(rs: seq<Record>, n: nat, h: Hash)
    requires Chain(rs, h) && n <= |rs|
    ensures Chain(rs[..n], h)
  {
    forall k: nat | k < n
      ensures LinkedAt(rs[..n], h, k)
    {
      assert LinkedAt(rs, h, k);
    }
  }

  /** Two chains with the same last id are the same chain. */
  lemma {:induction false} SameChain(a: seq<Record>, b: seq<Record>, h: Hash)
    requires Chain(a, h) && Chain(b, h) && NoCollision(h, a, b) && LastId(a) == LastId(b)
    ensures a == b
  {
    if a != [] {
      var m, n := |a| - 1, |b| - 1;
      assert LinkedAt(a, h, m) && LinkedAt(b, h, n);
      assert h(a[m].body) == h(b[n].body);
      ChainPrefix(a, m, h);
      ChainPrefix(b, n, h);
      SameChain(a[..m], b[..n], h);
      assert a == a[..m] + [a[m]] && b == b[..n] + [b[n]];
    }
  }

  lemma {:induction false} DecodedChain(lines: seq<Line>, h: Hash)
    ensures Chain(Decode(lines, h).records, h)
  {
    var d := After(lines, |lines|, h);
    AfterChain(lines, |lines|, h);
    ChainPrefix(d.records + d.pending, |d.records|, h);
    assert (d.records + d.pending)[..|d.records|] == d.records;
  }

  /** Unless two of their records collide, two logs whose trusted records end in the same
      id agree on all of them. */
  lemma {:induction false} LastIdDecides(a: seq<Line>, b: seq<Line>, h: Hash)
    requires NoCollision(h, Decode(a, h).records, Decode(b, h).records)
    requires LastId(Decode(a, h).records) == LastId(Decode(b, h).records)
    ensures Decode(a, h).records == Decode(b, h).records
  {
    DecodedChain(a, h);
    DecodedChain(b, h);
    SameChain(Decode(a, h).records, Decode(b, h).records, h);
  }

  // Tampering

  /** The line is accepted in the decoder's state and ends its group. */
  predicate ClosesGroup(d: Decoder, l: Line, h: Hash) {
    l.Entry? && Continues(d, l.record, h) && l.record.body.groupEnd
  }

  /** No record occurs twice in a chain. */
  lemma {:induction false} NotItsOwnParent(rs: seq<Record>, r: Record, h: Hash)
    requires Chain(rs + [r], h) && NoCollision(h, rs + [r], rs + [r])
    ensures LastId(rs) != Some(r.id)
  {
    if LastId(rs) == Some(r.id) {
      ChainPrefix(rs + [r], |rs|, h);
      assert (rs + [r])[..|rs|] == rs;
      assert forall k :: 0 <= k < |rs| ==> rs[k] == (rs + [r])[k];
      SameChain(rs, rs + [r], h);
    }
  }

  /** The new line for place i is another one, and its record does not collide with the one
      it replaces, nor do the records up to that place with each other. */
  ghost predicate Replaces(lines: seq<Line>, i: nat, l: Line, h: Hash) {
    && i < |lines| && lines[i].Entry? && l != lines[i]
    && NoCollision(h, RecordsOf(lines, i + 1), RecordsOf(lines, i + 1))
    && (l.Entry? && h(l.record.body) == h(lines[i].record.body) ==> l.record.body == lines[i].record.body)
  }

  /** Behind another line in the place of record i the decoder no longer stands where the
      rest of the log continues. */
  lemma {:induction false} OffTheChain(lines: seq<Line>, i: nat, l: Line, h: Hash)
    requires Decode(lines, h).complete && Replaces(lines, i, l, h)
    ensures var e := Feed(After(lines, i, h), l, h);
            After(lines, i + 1, h).parent == Some(lines[i].record.id)
              && (e.invalid || e.parent != Some(lines[i].record.id))
  {
    var d, r := After(lines, i, h), lines[i].record;
    ValidBefore(lines, i, |lines|, h);
    ValidBefore(lines, i + 1, |lines|, h);
    AfterChain(lines, i, h);
    AfterHolds(lines, i, h);
    ChainMore(d.records + d.pending, r, h);
    NotItsOwnParent(d.records + d.pending, r, h);
  }

  lemma {:induction false} RestIsRefused(lines: seq<Line>, i: nat, l: Line, n: nat, h: Hash)
    requires Decode(lines, h).complete && i < n <= |lines| && Replaces(lines, i, l, h)
    ensures var e := Feed(After(lines, i, h), l, h);
      var d := After(lines[i := l], n, h);
      || d == e.(invalid := true)
      || (d == e && After(lines, n, h) == After(lines, i + 1, h))
  {
    var t := lines[i := l];
    if n == i + 1 {
      AfterPrefix(lines, i, i, h);
      AfterPrefix(t, i, i, h);
      assert t[..i] == lines[..i];
    } else {
      RestIsRefused(lines, i, l, n - 1, h);
      OffTheChain(lines, i, l, h);
      ValidBefore(lines, n, |lines|, h);
      assert t[n - 1] == lines[n - 1];
    }
  }

  /** Replacing one record of a sound log by any other line leaves exactly the groups
      before it trusted, unless the new line is itself accepted there as the end of its
      group: then that group is trusted as well. Nothing behind the place ever is. */
  lemma {:induction false} TamperingCutsOff(lines: seq<Line>, i: nat, l: Line, h: Hash)
    requires Decode(lines, h).complete && Replaces(lines, i, l, h)
    ensures var before := RecordsOf(lines, LastEnd(lines, i));
      Decode(lines[i := l], h).records ==
        if ClosesGroup(After(lines, i, h), l, h) then RecordsOf(lines, i) + [l.record] else before
  {
    RestIsRefused(lines, i, l, |lines|, h);
    ValidBefore(lines, i, |lines|, h);
    AfterHolds(lines, i, h);
  }

  /** The exception is real: a group's last record can be rewritten with a fresh id. */
  lemma {:induction false} RewrittenEndIsTrusted(lines: seq<Line>, i: nat, result: string, h: Hash)
    requires Decode(lines, h).complete && Digests(h)
    requires i < |lines| && lines[i].Entry? && lines[i].record.body.groupEnd
    requires NoCollision(h, RecordsOf(lines, i + 1), RecordsOf(lines, i + 1))
    requires h(lines[i].record.body.(result := result)) != h(lines[i].record.body)
    ensures var body := lines[i].record.body.(result := result);
      var l := Entry(Record(h(body), body));
      l != lines[i] && Decode(lines[i := l], h).records == RecordsOf(lines, i) + [l.record]
  {
    var body := lines[i].record.body.(result := result);
    var l := Entry(Record(h(body), body));
    ValidBefore(lines, i + 1, |lines|, h);
    assert Continues(After(lines, i, h), lines[i].record, h);
    TamperingCutsOff(lines, i, l, h);
  }

  /** A digest of 64 equal letters. */
  function Letters(c: char): string { seq(64, _ => c) }

  /** There are logs and hashes of the kind just described: the log of a single record,
      and a hash that tells results apart. */
  lemma {:induction false} RewritableLogExists(b: Body, result: string) returns (h: Hash, lines: seq<Line>)
    requires b.parent.None? && b.step >= 1 && b.groupEnd && b.artifact.None? && result != b.result
    ensures Digests(h) && Decode(lines, h).complete && lines == [Entry(Record(h(b), b))]
    ensures NoCollision(h, RecordsOf(lines, 1), RecordsOf(lines, 1)) && h(b.(result := result)) != h(b)
    ensures Decode(lines[0 := Entry(Record(h(b.(result := result)), b.(result := result)))], h).records
            == [Record(h(b.(result := result)), b.(result := result))]
  {
    h := (x: Body) => if x.result == b.result then Letters('a') else Letters('b');
    assert Letters('a')[0] != Letters('b')[0];
    lines := [Entry(Record(h(b), b))];
    assert After(lines, 0, h) == FRESH;
    assert RecordsOf(lines, 0) == [] && RecordsOf(lines, 1) == [Record(h(b), b)];
    RewrittenEndIsTrusted(lines, 0, result, h);
  }
}
