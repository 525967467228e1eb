/** What each step of the dispatch protocol does: where a resumed loop goes on, which ids are
    announced, which fingerprints stand, and when the gap moves. */
module DispatchAnswers {
  import opened Text
  import opened Trajectory
  import opened TrajectoryIntegrity
  import opened Watermark
  import opened Dispatch

  // Where a resumed loop goes on

  lemma {:induction false} PositiveSteps(lines: seq<Line>, n: nat, h: Hash)
    requires n <= |lines|
    ensures forall k {:trigger After(lines, n, h).records[k]} :: 0 <= k < |After(lines, n, h).records| ==>
      After(lines, n, h).records[k].body.step >= 1
    ensures forall k {:trigger After(lines, n, h).pending[k]} :: 0 <= k < |After(lines, n, h).pending| ==>
      After(lines, n, h).pending[k].body.step >= 1
  {
    if n > 0 {
      PositiveSteps(lines, n - 1, h);
    }
  }

  /** What is kept of a log up to a step: all its records up to there, the last one last. */
  lemma {:induction false} KeptLast(rs: seq<Record>, s: int)
    requires Ascending(rs)
    ensures forall k {:trigger rs[k]} :: 0 <= k < |rs| && rs[k].body.step <= s ==>
      KeepUpTo(rs, s) != [] && rs[k].body.step <= LastStep(KeepUpTo(rs, s))
    ensures KeepUpTo(rs, s) != [] ==>
      exists k :: 0 <= k < |rs| && rs[k].body.step <= s && LastStep(KeepUpTo(rs, s)) == rs[k].body.step
  {
    if rs != [] {
      AscendingPrefix(rs);
      KeptLast(rs[..|rs| - 1], s);
      assert forall k :: 0 <= k < |rs| - 1 ==> rs[..|rs| - 1][k] == rs[k];
    }
  }

  /** The log can be read and record k lies below the durable gap. */
  ghost predicate Trusted(w: World, readable: bool, h: Hash, k: int)
    requires w.disk.Some?
  {
    && readable && 0 <= k < |Decode(w.log, h).records|
    && (w.disk.value.gap.Some? ==> Decode(w.log, h).records[k].body.step < w.disk.value.gap.value)
  }

  /** The step is behind every trusted record and not in front of the durable one. */
  ghost predicate Clear(w: World, readable: bool, h: Hash, step: int)
    requires w.disk.Some?
  {
    && step >= w.disk.value.next
    && forall k {:trigger Decode(w.log, h).records[k]} :: Trusted(w, readable, h, k) ==>
         Decode(w.log, h).records[k].body.step < step
  }

  /** Either 0 without trusted records, or the greatest step of one. */
  lemma {:induction false} LastTrustedIs(w: World, readable: bool, h: Hash)
    requires w.disk.Some?
    ensures var last, rs := LastTrusted(w, readable, h), Decode(w.log, h).records;
      && (forall k {:trigger rs[k]} :: Trusted(w, readable, h, k) ==> 1 <= rs[k].body.step <= last)
      && (last != 0 ==> exists k {:trigger rs[k]} :: Trusted(w, readable, h, k) && rs[k].body.step == last)
  {
    var rs := Decode(w.log, h).records;
    AfterAscending(w.log, |w.log|, h);
    PositiveSteps(w.log, |w.log|, h);
    if readable && w.disk.value.gap.Some? {
      KeptLast(rs, w.disk.value.gap.value - 1);
    } else if rs != [] {
      assert forall k :: 0 <= k < |rs| ==> rs[k].body.step <= rs[|rs| - 1].body.step;
    }
  }

  /** A resumed loop goes on at the durable gap if that is not behind the durable step, and
      otherwise at the least clear step; at the durable step as it is when the rebuilt record
      cannot be saved or read back. */
  lemma {:induction false} ResumesAt(w: World, readable: bool, through: int, ok: bool, reread: bool, h: Hash)
    requires Enabled(w, Resume(readable, through, ok, reread), h)
    ensures var r, m := w.disk.value, Next(w, Resume(readable, through, ok, reread), h).memory;
      && m.Some?
      && (!(ok && reread) ==> m.value.cursor == r.next)
      && (ok && reread && r.gap.Some? && r.gap.value <= r.next ==> m.value.cursor == r.gap.value)
      && (ok && reread && !(r.gap.Some? && r.gap.value <= r.next) ==>
            Clear(w, readable, h, m.value.cursor)
            && forall step :: Clear(w, readable, h, step) ==> m.value.cursor <= step)
  {
    var rs, last := Decode(w.log, h).records, LastTrusted(w, readable, h);
    LastTrustedIs(w, readable, h);
    if last != 0 {
      var k :| Trusted(w, readable, h, k) && rs[k].body.step == last;
      assert forall step :: Clear(w, readable, h, step) ==> rs[k].body.step < step;
    }
  }

  /** It holds what the record holds, and claims no more of its summary than the log. */
  lemma {:induction false} ResumesWith(w: World, readable: bool, through: int, ok: bool, reread: bool, h: Hash)
    requires Enabled(w, Resume(readable, through, ok, reread), h)
    ensures var r, t := w.disk.value, Next(w, Resume(readable, through, ok, reread), h);
      && t.memory.Some? && t.disk.Some?
      && t.memory.value.announced == t.disk.value.announced == r.announced
      && t.memory.value.fingerprints == t.disk.value.fingerprints == r.fingerprints
      && t.memory.value.gap == t.disk.value.gap == r.gap
      && t.memory.value.through == (if ok && reread then through else r.through)
      && (!ok ==> t.disk == w.disk) && (ok && reread ==> t.disk.value.next == t.memory.value.cursor)
  {}

  // Identities

  /** An id is announced exactly if it is not empty and the run has not seen it. */
  lemma {:induction false} FreshIff(ids: seq<string>, announced: seq<string>, n: nat, id: string)
    requires n <= |ids|
    ensures id in Fresh(ids, announced, n) <==> id != "" && id !in announced && exists i :: 0 <= i < n && ids[i] == id
  {
    if n > 0 {
      FreshIff(ids, announced, n - 1, id);
      if ids[n - 1] in ids[..n - 1] {
        var k :| 0 <= k < n - 1 && ids[..n - 1][k] == ids[n - 1];
        assert ids[k] == ids[n - 1];
      }
    }
  }

  /** No id is announced twice, and they keep their order. */
  lemma {:induction false} FreshInOrder(ids: seq<string>, announced: seq<string>, n: nat) returns (at: seq<nat>)
    requires n <= |ids|
    ensures |at| == |Fresh(ids, announced, n)|
    ensures forall k :: 0 <= k < |at| ==> at[k] < n && Fresh(ids, announced, n)[k] == ids[at[k]]
    ensures forall j, k :: 0 <= j < k < |at| ==> at[j] < at[k]
  {
    at := [];
    if n > 0 {
      at := FreshInOrder(ids, announced, n - 1);
      if Fresh(ids, announced, n) != Fresh(ids, announced, n - 1) {
        at := at + [n - 1];
      }
    }
  }

  /** The fresh ids are announced: in memory, in a saved record if there are any, and to the
      gate. If that save fails the loop stops with the record it had. */
  lemma {:induction false} AnnounceSays(w: World, ids: seq<string>, ok: bool, h: Hash)
    requires Enabled(w, Announce(ids, ok), h)
    ensures var m, t := w.memory.value, Next(w, Announce(ids, ok), h);
      var added := Fresh(ids, m.announced, |ids|);
      if added == [] || ok then
        && t.phase == Announced(added) && t.hot == w.hot
        && t.memory == Some(Memory(m.announced + added, m.fingerprints, m.gap, m.through, m.cursor))
        && t.disk == if added == [] then w.disk
                     else Some(Saved(m.announced + added, m.fingerprints, m.gap, m.through, m.cursor))
      else t.memory.None? && t.phase == Idle && t.disk == w.disk
  {
    var m := w.memory.value;
    assert m.announced + [] == m.announced;
  }

  /** The batch goes from the gate through reservation, execution and log unchanged; a save
      that fails and a crash end the loop. */
  lemma {:induction false} PhasesFollow(w: World, e: Event, h: Hash)
    requires Enabled(w, e, h)
    ensures var t := Next(w, e, h);
      match e
      case Gate(batch) => t.phase == Gated(batch)
      case Reserve(_, ok) => t.phase == Reserved(w.phase.batch) || (!ok && t.memory.None? && t.phase == Idle)
      case Dispatch => t.phase == InFlight(w.phase.batch)
      case Settle(won) => t.phase == Settled(w.phase.batch, won)
      case Append(_, _) => t.phase == Logged(w.phase.batch, w.phase.won)
      case GroupSave(ok) => t.phase == Idle && (t.memory.Some? <==> ok)
      case Crash => t.memory.None? && t.phase == Idle && t.disk == w.disk
      case Announce(_, _) => true
      case _ => t.phase == Idle
  {}

  /** A call is refused exactly if its id is empty, was seen in the response or in the run. */
  lemma {:induction false} RefusedIff(ids: seq<string>, announced: seq<string>, n: nat, i: nat)
    requires i < n <= |ids|
    ensures i in RefusedIds(ids, announced, n)
            <==> ids[i] == "" || ids[i] in announced || exists j :: 0 <= j < i && ids[j] == ids[i]
  {
    if i < n - 1 {
      RefusedIff(ids, announced, n - 1, i);
    } else {
      RefusedBelow(ids, announced, n - 1, i);
      assert ids[i] in ids[..i] <==> exists j :: 0 <= j < i && ids[j] == ids[i] by {
        if ids[i] in ids[..i] {
          var j :| 0 <= j < i && ids[..i][j] == ids[i];
        }
        if j :| 0 <= j < i && ids[j] == ids[i] {
          assert ids[..i][j] == ids[i];
        }
      }
    }
  }

  lemma {:induction false} RefusedBelow(ids: seq<string>, announced: seq<string>, n: nat, i: nat)
    requires n <= i < |ids|
    ensures i !in RefusedIds(ids, announced, n)
  {
    if n > 0 {
      RefusedBelow(ids, announced, n - 1, i);
    }
  }

  // Fingerprints

  /** An action of the batch with this fingerprint succeeded. */
  predicate Wins(batch: seq<Action>, won: seq<bool>, f: string)
    requires |won| == |batch|
  {
    exists k :: 0 <= k < |batch| && won[k] && batch[k].fingerprint == Some(f)
  }

  /** After a batch exactly the fingerprints of its successful actions stand at its step; a
      failed action leaves no mark. */
  lemma {:induction false} MarkedIff(fps: Fingerprints, batch: seq<Action>, won: seq<bool>, step: int, f: string)
    requires |won| == |batch|
    ensures f in Marked(fps, batch, won, step) <==> f in fps || Wins(batch, won, f)
    ensures f in Marked(fps, batch, won, step) ==>
      Marked(fps, batch, won, step)[f] == if Wins(batch, won, f) then step else fps[f]
  {
    if batch != [] {
      var n := |batch| - 1;
      MarkedIff(fps, batch[..n], won[..n], step, f);
      assert Wins(batch, won, f) <==> Wins(batch[..n], won[..n], f) || (won[n] && batch[n].fingerprint == Some(f)) by {
        if Wins(batch[..n], won[..n], f) {
          var k :| 0 <= k < n && won[..n][k] && batch[..n][k].fingerprint == Some(f);
          assert won[k] && batch[k].fingerprint == Some(f);
        }
        if Wins(batch, won, f) {
          var k :| 0 <= k < |batch| && won[k] && batch[k].fingerprint == Some(f);
          assert k < n ==> won[..n][k] && batch[..n][k].fingerprint == Some(f);
        }
      }
    }
  }

  /** What a settled step leaves: marks of the successes, all else as the gate left it. */
  lemma {:induction false} SettleMarks(w: World, won: seq<bool>, h: Hash, f: string)
    requires Enabled(w, Settle(won), h)
    ensures var m, t := w.memory.value, Next(w, Settle(won), h);
      && t.memory.Some? && t.memory.value == m.(fingerprints := t.memory.value.fingerprints)
      && (f in t.memory.value.fingerprints <==> f in m.fingerprints || Wins(w.phase.batch, won, f))
      && (f in t.memory.value.fingerprints ==>
            t.memory.value.fingerprints[f] == if Wins(w.phase.batch, won, f) then m.cursor else m.fingerprints[f])
      && t.disk == w.disk && t.log == w.log && t.dispatched == w.dispatched
  {
    MarkedIff(w.memory.value.fingerprints, w.phase.batch, won, w.memory.value.cursor, f);
  }

  /** A tool step forgets exactly the fingerprints ahead of it or more than eight steps back. */
  lemma {:induction false} GateForgetsIff(w: World, batch: seq<Action>, h: Hash, f: string)
    requires Enabled(w, Gate(batch), h) && f in w.memory.value.fingerprints
    ensures var m, t := w.memory.value, Next(w, Gate(batch), h).memory;
      && t.Some? && (f in t.value.fingerprints <==> m.fingerprints[f] <= m.cursor <= m.fingerprints[f] + 8)
      && (f in t.value.fingerprints ==> t.value.fingerprints[f] == m.fingerprints[f])
      && t.value == m.(fingerprints := t.value.fingerprints)
  {}

  // Reservations and saves

  /** The lower of the gap and the step. */
  lemma {:induction false} LowerGapIsLeast(gap: Option<int>, step: int)
    ensures var g := LowerGap(gap, step);
      && g.Some? && g.value <= step && (gap.Some? ==> g.value <= gap.value)
      && (g.value == step || Some(g.value) == gap)
  {}

  /** What a saved reservation says: memory's record, with every guarded action of the batch
      at this step, and the gap not above it; memory itself stays as it is. */
  lemma {:induction false} ReservationSays(w: World, reordered: bool, h: Hash, f: string)
    requires Enabled(w, Reserve(reordered, true), h) && w.phase.batch != []
    requires ReservedPrints(w.memory.value, w.phase.batch) != w.memory.value.fingerprints
             || ReservedGap(w.memory.value, w.phase.batch) != w.memory.value.gap || reordered
    ensures var m, t := w.memory.value, Next(w, Reserve(reordered, true), h);
      var guarded := exists k :: 0 <= k < |w.phase.batch| && w.phase.batch[k].fingerprint == Some(f);
      && t.memory == w.memory && t.phase == Reserved(w.phase.batch) && t.disk.Some?
      && t.disk.value.announced == m.announced && t.disk.value.through == m.through && t.disk.value.next == m.cursor
      && t.disk.value.gap == (if m.gap.Some? && m.gap.value < m.cursor then m.gap else Some(m.cursor))
      && (f in t.disk.value.fingerprints <==> f in m.fingerprints || guarded)
      && (f in t.disk.value.fingerprints ==>
            t.disk.value.fingerprints[f] == if guarded then m.cursor else m.fingerprints[f])
  {
    var m, batch := w.memory.value, w.phase.batch;
    MarkedIff(m.fingerprints, batch, All(|batch|), m.cursor, f);
    assert Wins(batch, All(|batch|), f) <==> exists k :: 0 <= k < |batch| && batch[k].fingerprint == Some(f) by {
      if k :| 0 <= k < |batch| && batch[k].fingerprint == Some(f) {
        assert All(|batch|)[k];
      }
    }
  }

  /** A save in the run, after announcing, or behind a group writes memory as it is then. */
  lemma {:induction false} SaveSays(w: World, e: Event, h: Hash)
    requires Enabled(w, e, h) && ((e.Save? || e.Announce? || e.GroupSave?) && e.ok)
    requires e.Announce? ==> Fresh(e.ids, w.memory.value.announced, |e.ids|) != []
    ensures var t := Next(w, e, h);
      && t.memory.Some? && t.disk.Some? && t.disk.value.announced == t.memory.value.announced
      && t.disk.value.fingerprints == t.memory.value.fingerprints && t.disk.value.gap == t.memory.value.gap
      && t.disk.value.through == t.memory.value.through
      && t.disk.value.next == t.memory.value.cursor + if e.Save? && e.ahead then 1 else 0
  {}

  /** The gap in memory moves only with an append that fails, and then to the step at most;
      a step ends with its group, one by one. */
  lemma {:induction false} GapAndCursorMove(w: World, e: Event, h: Hash)
    requires Enabled(w, e, h) && w.memory.Some? && Next(w, e, h).memory.Some?
    ensures var m, t := w.memory.value, Next(w, e, h).memory.value;
      && t.cursor == m.cursor + (if e.Think? || e.GroupSave? then 1 else 0)
      && (t.gap != m.gap ==> e.Append? && !AppendTo(w.log, e.group, h, e.fault).1.Appended?)
      && (e.Append? && !AppendTo(w.log, e.group, h, e.fault).1.Appended? ==>
            t.gap.Some? && t.gap.value <= m.cursor && (t.gap == Some(m.cursor) || t.gap == m.gap))
  {}

  /** What the loop executed is what passed the gate, at its step, and nothing else. */
  lemma {:induction false} OnlyDispatchExecutes(w: World, e: Event, h: Hash)
    requires Enabled(w, e, h)
    ensures var t := Next(w, e, h);
      t.dispatched == if e.Dispatch? && w.phase.batch != []
                      then w.dispatched + [Dispatched(w.memory.value.cursor, IdsOf(w.phase.batch))]
                      else w.dispatched
    ensures Next(w, e, h).log == if e.Append? then AppendTo(w.log, e.group, h, e.fault).0 else w.log
  {}
}
