/** The guarantees of the dispatch protocol, for every run. */
module DispatchTheorems {
  import opened Text
  import opened Trajectory
  import opened Dispatch
  import opened DispatchSafety

  lemma {:induction false} Reached(es: seq<Event>, w: World, h: Hash)
    requires Digests(h) && Leads(NEW_RUN, es, w, h)
    ensures Inv(w, h)
  {
    NewRunIsGood(h);
    RunKeeps(NEW_RUN, es, w, h);
  }

  /** Over every run, each dispatched step has the records of all its calls in the trusted
      log, or the durable gap is at or below it; the gap is above the durable watermark, so
      the summary never claims a step with a lost record. */
  lemma {:induction false} NoSilentLoss(es: seq<Event>, w: World, h: Hash, i: nat)
    requires Digests(h) && Leads(NEW_RUN, es, w, h) && i < |w.dispatched|
    ensures w.disk.Some?
    ensures var rs, d := Decode(w.log, h).records, w.dispatched[i];
      && (Recorded(rs, d) || Covered(w.disk.value.gap, d.step))
      && (w.disk.value.gap.Some? ==> w.disk.value.through < w.disk.value.gap.value)
      && (!Recorded(rs, d) ==> w.disk.value.through < d.step)
  {
    Reached(es, w, h);
    var rs, ds := Decode(w.log, h).records, w.dispatched;
    assert DurableWith(w.disk.value, rs, ds, HotNow(w));
    assert Recorded(rs, ds[i]) || Covered(w.disk.value.gap, ds[i].step);
  }

  /** Nor does the summary in memory. */
  lemma {:induction false} MemoryClaimsNothingLost(es: seq<Event>, w: World, h: Hash, i: nat)
    requires Digests(h) && Leads(NEW_RUN, es, w, h) && i < |w.dispatched| && w.memory.Some?
    ensures var m := w.memory.value;
      && m.through < m.cursor && (m.gap.Some? ==> m.through < m.gap.value)
      && (!Recorded(Decode(w.log, h).records, w.dispatched[i]) ==> m.through < w.dispatched[i].step)
  {
    Reached(es, w, h);
    var rs, m, ds := Decode(w.log, h).records, w.memory.value, w.dispatched;
    assert GoodMemory(m);
    if w.phase.InFlight? || w.phase.Settled? {
      var batch := w.phase.batch;
      var before := Earlier(ds, batch);
      assert Lined(rs, before, m.gap) && LastIs(ds, batch, m.cursor);
      if i < |before| {
        assert before[i] == ds[i];
      }
    } else {
      assert Lined(rs, ds, m.gap);
    }
  }

  /** No call id is executed twice in the life of a run. */
  lemma {:induction false} NoIdTwice(es: seq<Event>, w: World, h: Hash)
    requires Digests(h) && Leads(NEW_RUN, es, w, h)
    ensures Distinct(AllIds(w.dispatched))
  {
    Reached(es, w, h);
  }

  /** What run_state.load checks of ids, cursor, gap and fingerprints. */
  predicate Loadable(r: Saved) {
    && r.next >= 1 && Distinct(r.announced) && "" !in r.announced
    && (r.gap.Some? ==> r.gap.value >= 1)
    && (forall f :: f in r.fingerprints ==> r.fingerprints[f] >= 1 && IsDigest(f))
  }

  /** A run whose record was ever saved can always be resumed: the record loads, holds
      every executed id, and the resumed step is above the watermark. */
  lemma {:induction false} RecordAlwaysLoads(es: seq<Event>, w: World, h: Hash, ok: bool, reread: bool)
    requires Digests(h) && Leads(NEW_RUN, es, w, h) && w.disk.Some? && w.memory.None?
    ensures Loadable(w.disk.value) && Subset(AllIds(w.dispatched), w.disk.value.announced)
    ensures Enabled(w, Resume(true, w.disk.value.through, ok, reread), h)
    ensures var m := Next(w, Resume(true, w.disk.value.through, ok, reread), h).memory.value; m.through < m.cursor
  {
    Reached(es, w, h);
    var e := Resume(true, w.disk.value.through, ok, reread);
    NextKeeps(w, e, h);
    assert GoodMemory(Next(w, e, h).memory.value);
  }

  /** A guarded action that succeeded or was never settled at some step is executed again
      without force only behind its window, or with a gap at or below the window's end; in
      front of its step only with a gap at or below that step. */
  lemma {:induction false} GuardHolds(es: seq<Event>, w: World, h: Hash, batch: seq<Action>, k: nat)
    requires Digests(h) && Leads(NEW_RUN, es, w, h) && Enabled(w, Gate(batch), h)
    requires k < |batch| && batch[k].fingerprint.Some? && !batch[k].force && batch[k].fingerprint.value in w.hot
    ensures var step, m := w.hot[batch[k].fingerprint.value], w.memory.value;
      && (m.cursor > step + WINDOW || Covered(m.gap, step + WINDOW))
      && (m.cursor < step ==> Covered(m.gap, step))
  {
    Reached(es, w, h);
    var f, m := batch[k].fingerprint.value, w.memory.value;
    var after := Next(w, Gate(batch), h);
    NextKeeps(w, Gate(batch), h);
    assert Guarding(after.memory.value.fingerprints, after.hot, m.gap, m.cursor);
    assert f !in Filtered(m.fingerprints, m.cursor);
  }

  // Within the window of an action

  lemma {:induction false} OneMore(v: World, es: seq<Event>, w: World, e: Event, h: Hash)
    requires Leads(v, es, w, h) && Enabled(w, e, h)
    ensures Leads(v, es + [e], Next(w, e, h), h)
    decreases |es|
  {
    if es == [] {
      assert es + [e] == [e] && [e][1..] == [];
    } else {
      assert (es + [e])[1..] == es[1..] + [e] && (es + [e])[0] == es[0];
      OneMore(Next(v, es[0], h), es[1..], w, e, h);
    }
  }

  /** The action f under the given id. */
  function Guarded(id: string, f: string): Action { Action(id, Some(f), false) }

  lemma {:induction false} Extend(es: seq<Event>, w: World, e: Event, h: Hash) returns (es': seq<Event>, w': World)
    requires Leads(NEW_RUN, es, w, h) && Enabled(w, e, h)
    ensures Leads(NEW_RUN, es', w', h) && w' == Next(w, e, h)
  {
    OneMore(NEW_RUN, es, w, e, h);
    es', w' := es + [e], Next(w, e, h);
  }

  lemma {:induction false} FreshOne(id: string, announced: seq<string>)
    requires id != "" && id !in announced
    ensures Fresh([id], announced, 1) == [id]
  {
    assert [id][..0] == [] && Fresh([id], announced, 0) == [];
    assert [] + [id] == [id];
  }

  lemma {:induction false} Announces(es: seq<Event>, w: World, id: string, h: Hash) returns (es': seq<Event>, w': World)
    requires Leads(NEW_RUN, es, w, h) && Running(w, Idle) && id != "" && id !in w.memory.value.announced
    ensures Leads(NEW_RUN, es', w', h)
    ensures var m := w.memory.value.(announced := w.memory.value.announced + [id]);
      w' == w.(memory := Some(m), phase := Announced([id]), disk := Some(Snapshot(m, m.cursor)))
  {
    FreshOne(id, w.memory.value.announced);
    es', w' := Extend(es, w, Announce([id], true), h);
  }

  /** A response with this one call, executed at the current step. */
  lemma {:induction false} Executes(es: seq<Event>, w: World, a: Action, h: Hash)
    returns (es': seq<Event>, w': World)
    requires Leads(NEW_RUN, es, w, h) && Running(w, Idle) && a.id != "" && a.id !in w.memory.value.announced
    requires Keyed([a])
    requires a.fingerprint.Some? && !a.force ==>
      a.fingerprint.value !in Filtered(w.memory.value.fingerprints, w.memory.value.cursor)
    requires (a.fingerprint.Some? && !a.force) || w.memory.value.gap.None?
    ensures Leads(NEW_RUN, es', w', h)
    ensures var m := Filtering(w.memory.value, [a.id]);
      w' == w.(memory := Some(m), phase := InFlight([a]), disk := Some(Snapshot(Reserving(m, [a]), m.cursor)),
               dispatched := w.dispatched + [Dispatched(m.cursor, [a.id])])
  {
    es', w' := Announces(es, w, a.id, h);
    MarksOne(Filtered(w.memory.value.fingerprints, w.memory.value.cursor), a, w.memory.value.cursor);
    es', w' := Extend(es', w', Gate([a]), h);
    es', w' := Extend(es', w', Reserve(false, true), h);
    es', w' := Extend(es', w', Event.Dispatch, h);
  }

  /** Memory behind the gate of a step that announces the ids. */
  function Filtering(m: Memory, ids: seq<string>): Memory {
    m.(announced := m.announced + ids, fingerprints := Filtered(m.fingerprints, m.cursor))
  }

  function Reserving(m: Memory, batch: seq<Action>): Memory {
    m.(fingerprints := ReservedPrints(m, batch), gap := ReservedGap(m, batch))
  }

  lemma {:induction false} Thinks(es: seq<Event>, w: World, n: nat, h: Hash) returns (es': seq<Event>, w': World)
    requires Leads(NEW_RUN, es, w, h) && Running(w, Idle)
    ensures Leads(NEW_RUN, es', w', h)
    ensures w' == w.(memory := Some(w.memory.value.(cursor := w.memory.value.cursor + n)))
  {
    es', w' := es, w;
    if n > 0 {
      es', w' := Thinks(es, w, n - 1, h);
      es', w' := Extend(es', w', Think, h);
    }
  }

  /** The group of a single refused or executed call. */
  function GroupOf(step: int, id: string, executed: set<string>): Group {
    Group(step, [ToolCall(Some(id), "bash_exec", "{}", false, None)], [""], executed)
  }

  lemma {:induction false} NothingWritten(log: seq<Line>, g: Group, h: Hash)
    requires g.calls != []
    ensures AppendTo(log, g, h, Fails(0, false)).0 == log && !AppendTo(log, g, h, Fails(0, false)).1.Appended?
  {
    if Acceptable(log, g, h) {
      var rs := NewRecords(log, g, h);
      assert rs[..0] == [] && Written(rs, Fails(0, false)) == [];
      assert log + [] == log;
    }
  }

  /** A step whose only call is refused... */
  lemma {:induction false} RefusesAll(es: seq<Event>, w: World, id: string, h: Hash)
    returns (es': seq<Event>, w': World)
    requires Leads(NEW_RUN, es, w, h) && Running(w, Idle) && id != "" && id !in w.memory.value.announced
    ensures Leads(NEW_RUN, es', w', h)
    ensures var m := w.memory.value;
      w' == w.(memory := Some(Filtering(m, [id])), phase := Settled([], []),
               disk := Some(Snapshot(m.(announced := m.announced + [id]), m.cursor)))
  {
    es', w' := Announces(es, w, id, h);
    es', w' := Extend(es', w', Gate([]), h);
    es', w' := Extend(es', w', Reserve(false, true), h);
    es', w' := Extend(es', w', Event.Dispatch, h);
    es', w' := Extend(es', w', Settle([]), h);
  }

  /** ... and whose append fails behind an earlier gap. */
  lemma {:induction false} Refuses(es: seq<Event>, w: World, id: string, h: Hash)
    returns (es': seq<Event>, w': World)
    requires Leads(NEW_RUN, es, w, h) && Running(w, Idle) && id != "" && id !in w.memory.value.announced
    requires w.memory.value.gap.Some? && w.memory.value.gap.value < w.memory.value.cursor
    ensures Leads(NEW_RUN, es', w', h)
    ensures var m := Filtering(w.memory.value, [id]);
      var m' := m.(cursor := m.cursor + 1);
      w' == w.(memory := Some(m'), disk := Some(Snapshot(m', m'.cursor)))
  {
    var c := w.memory.value.cursor;
    es', w' := RefusesAll(es, w, id, h);
    NothingWritten(w'.log, GroupOf(c, id, {}), h);
    es', w' := Extend(es', w', Append(GroupOf(c, id, {}), Fails(0, false)), h);
    es', w' := Extend(es', w', GroupSave(true), h);
    NothingMarked(w.hot, c);
  }

  lemma {:induction false} MarksOne(fps: Fingerprints, a: Action, step: int)
    ensures Marked(fps, [a], [true], step) == if a.fingerprint.Some? then fps[a.fingerprint.value := step] else fps
    ensures All(1) == [true] && IdsOf([a]) == [a.id]
  {
    assert [a][..0] == [] && [true][..0] == [];
    assert Marked(fps, [], [], step) == fps;
  }

  /** A step whose only call succeeds, as the first of the log. */
  lemma {:induction false} Succeeds(es: seq<Event>, w: World, a: Action, h: Hash)
    returns (es': seq<Event>, w': World)
    requires Leads(NEW_RUN, es, w, h) && w.memory.Some? && w.phase == InFlight([a])
    requires w.log == [] && w.memory.value.cursor >= 1
    ensures Leads(NEW_RUN, es', w', h) && Running(w', Idle) && w'.dispatched == w.dispatched
    ensures var m := w.memory.value;
      && w'.memory.value == m.(fingerprints := Marked(m.fingerprints, [a], [true], m.cursor), cursor := m.cursor + 1)
      && w'.hot == Marked(w.hot, [a], [true], m.cursor)
  {
    var c := w.memory.value.cursor;
    var g := GroupOf(c, a.id, {a.id});
    MarksOne(w.hot, a, c);
    es', w' := Extend(es, w, Settle([true]), h);
    assert Decode([], h) == Decoded([], true);
    assert CallIds(g.calls)[0] == Some(a.id);
    es', w' := Extend(es', w', Append(g, NoFault), h);
    es', w' := Extend(es', w', GroupSave(true), h);
  }

  /** The loop crashes with a call in flight and is resumed, with its log unreadable. */
  lemma {:induction false} Restarts(es: seq<Event>, w: World, h: Hash) returns (es': seq<Event>, w': World)
    requires Leads(NEW_RUN, es, w, h) && w.memory.Some? && w.disk.Some?
    requires w.disk.value.through >= 0
    ensures Leads(NEW_RUN, es', w', h) && Running(w', Idle) && w'.dispatched == w.dispatched && w'.log == w.log
    ensures var r, batch := w.disk.value, Unsettled(w.phase);
      && w'.memory.value == Restored(r).(cursor := if r.gap.Some? && r.gap.value < r.next then r.gap.value else r.next)
      && w'.hot == Marked(w.hot, batch, All(|batch|), w.memory.value.cursor)
  {
    es', w' := Extend(es, w, Crash, h);
    es', w' := Extend(es', w', Resume(false, w.disk.value.through, true, true), h);
  }

  // A repetition within the window

  /** The run stands at gap g, and f is hot from step s. */
  ghost predicate Armed(w: World, f: string, s: int, g: int) {
    && Running(w, Idle)
    && w.memory.value == Memory(w.memory.value.announced, map[f := s], Some(g), 0, g)
    && "b" !in w.memory.value.announced && "c" !in w.memory.value.announced
    && f in w.hot && w.hot[f] == s && Dispatched(s, ["a"]) in w.dispatched
  }

  lemma {:induction false} Starts(step: int, h: Hash) returns (es: seq<Event>, w: World)
    requires step >= 1
    ensures Leads(NEW_RUN, es, w, h) && w == NEW_RUN.(memory := Some(Memory([], map[], None, 0, step)))
  {
    assert Leads(NEW_RUN, [], NEW_RUN, h);
    es, w := Extend([], NEW_RUN, Start, h);
    es, w := Thinks(es, w, step - 1, h);
  }

  /** The loop crashes with an unguarded call in flight: the gap is where it stands. */
  lemma {:induction false} LatchesGap(es: seq<Event>, w: World, h: Hash) returns (es': seq<Event>, w': World)
    requires Leads(NEW_RUN, es, w, h) && Running(w, Idle) && "x" !in w.memory.value.announced
    requires w.memory.value.gap.None? && w.memory.value.through >= 0
    ensures Leads(NEW_RUN, es', w', h) && Running(w', Idle)
    ensures w'.memory.value == Filtering(w.memory.value, ["x"]).(gap := Some(w.memory.value.cursor))
    ensures w'.hot == w.hot && w'.dispatched == w.dispatched + [Dispatched(w.memory.value.cursor, ["x"])]
  {
    var x, m := Action("x", None, false), Filtering(w.memory.value, ["x"]);
    es', w' := Executes(es, w, x, h);
    MarksOne(m.fingerprints, x, m.cursor);
    MarksOne(w.hot, x, m.cursor);
    es', w' := Restarts(es', w', h);
  }

  /** The action f is in flight at its step... */
  lemma {:induction false} TakesOff(es: seq<Event>, w: World, f: string, h: Hash)
    returns (es': seq<Event>, w': World)
    requires Leads(NEW_RUN, es, w, h) && Running(w, Idle) && "a" !in w.memory.value.announced
    requires IsDigest(f) && w.memory.value.fingerprints == map[]
    ensures Leads(NEW_RUN, es', w', h)
    ensures var m := w.memory.value.(announced := w.memory.value.announced + ["a"]);
      && w'.memory == Some(m) && w'.phase == InFlight([Guarded("a", f)]) && w'.log == w.log && w'.hot == w.hot
      && w'.disk == Some(Saved(m.announced, map[f := m.cursor], LowerGap(m.gap, m.cursor), m.through, m.cursor))
      && w'.dispatched == w.dispatched + [Dispatched(m.cursor, ["a"])]
  {
    var m := w.memory.value;
    assert Filtered(map[], m.cursor) == map[];
    MarksOne(map[], Guarded("a", f), m.cursor);
    es', w' := Executes(es, w, Guarded("a", f), h);
  }

  /** ... when the loop crashes. */
  lemma {:induction false} CrashesInFlight(es: seq<Event>, w: World, f: string, h: Hash)
    returns (es': seq<Event>, w': World)
    requires Leads(NEW_RUN, es, w, h) && Running(w, Idle) && "a" !in w.memory.value.announced
    requires IsDigest(f) && w.memory.value.fingerprints == map[] && w.memory.value.through >= 0
    ensures Leads(NEW_RUN, es', w', h) && Running(w', Idle)
    ensures var m := w.memory.value;
      var gap := LowerGap(m.gap, m.cursor);
      && w'.memory.value == Memory(m.announced + ["a"], map[f := m.cursor], gap, m.through, gap.value)
      && w'.hot == w.hot[f := m.cursor] && w'.dispatched == w.dispatched + [Dispatched(m.cursor, ["a"])]
  {
    es', w' := TakesOff(es, w, f, h);
    MarksOne(w.hot, Guarded("a", f), w.memory.value.cursor);
    es', w' := Restarts(es', w', h);
  }

  lemma {:induction false} InDispatched(ds: seq<Dispatched>, d: Dispatched)
    ensures (ds + [d])[|ds|] == d && d in ds + [d]
  {}

  /** The action itself is in flight at the gap when the loop crashes... */
  lemma {:induction false} ArmedAtGap(f: string, s: int, h: Hash) returns (es: seq<Event>, w: World)
    requires IsDigest(f) && s >= 1
    ensures Leads(NEW_RUN, es, w, h) && Armed(w, f, s, s)
  {
    es, w := Starts(s, h);
    InDispatched(w.dispatched, Dispatched(s, ["a"]));
    es, w := CrashesInFlight(es, w, f, h);
  }

  /** ... or succeeds, and another call is in flight at the gap... */
  lemma {:induction false} ArmedBehind(f: string, s: int, g: int, h: Hash) returns (es: seq<Event>, w: World)
    requires IsDigest(f) && 1 <= s < g <= s + WINDOW
    ensures Leads(NEW_RUN, es, w, h) && Armed(w, f, s, g)
  {
    es, w := Starts(s, h);
    InDispatched(w.dispatched, Dispatched(s, ["a"]));
    es, w := TakesOff(es, w, f, h);
    MarksOne(map[], Guarded("a", f), s);
    es, w := Succeeds(es, w, Guarded("a", f), h);
    es, w := Thinks(es, w, g - s - 1, h);
    assert Filtered(map[f := s], g) == map[f := s];
    es, w := LatchesGap(es, w, h);
  }

  /** ... or another call is in flight at the gap, and then the action at its step. */
  lemma {:induction false} ArmedAhead(f: string, s: int, g: int, h: Hash) returns (es: seq<Event>, w: World)
    requires IsDigest(f) && 1 <= g < s
    ensures Leads(NEW_RUN, es, w, h) && Armed(w, f, s, g)
  {
    es, w := Starts(g, h);
    assert Filtered(map[], g) == map[];
    es, w := LatchesGap(es, w, h);
    es, w := Thinks(es, w, s - g, h);
    InDispatched(w.dispatched, Dispatched(s, ["a"]));
    es, w := CrashesInFlight(es, w, f, h);
  }

  /** The fingerprint is dropped behind the window; the next crash leads back to the gap. */
  lemma {:induction false} BackAtTheGap(es: seq<Event>, w: World, f: string, s: int, g: int, h: Hash)
    returns (es': seq<Event>, w': World)
    requires Leads(NEW_RUN, es, w, h) && Armed(w, f, s, g) && 1 <= g <= s + WINDOW
    ensures Leads(NEW_RUN, es', w', h) && Running(w', Idle)
    ensures w'.memory.value == Memory(w.memory.value.announced + ["b"], map[], Some(g), 0, g)
    ensures w'.hot == w.hot && w'.dispatched == w.dispatched
  {
    var last := s + WINDOW + 1;
    es', w' := Thinks(es, w, last - g, h);
    assert Filtered(map[f := s], last) == map[];
    es', w' := Refuses(es', w', "b", h);
    NothingMarked(w.hot, last + 1);
    es', w' := Restarts(es', w', h);
  }

  /** That exception is real for every step and gap: with a gap at or below the end of its
      window, an action is executed again within the window without force. */
  lemma {:induction false} WindowIsForgotten(f: string, s: int, g: int, h: Hash) returns (es: seq<Event>, w: World)
    requires IsDigest(f) && s >= 1 && 1 <= g <= s + WINDOW
    ensures Leads(NEW_RUN, es, w, h) && w.phase == InFlight([Guarded("c", f)]) && w.memory.Some?
    ensures f in w.hot && w.hot[f] == s && w.memory.value.gap == Some(g) && s <= w.memory.value.cursor <= s + WINDOW
    ensures Dispatched(s, ["a"]) in w.dispatched
    ensures w.dispatched[|w.dispatched| - 1..] == [Dispatched(w.memory.value.cursor, ["c"])]
  {
    if s == g {
      es, w := ArmedAtGap(f, s, h);
    } else if s < g {
      es, w := ArmedBehind(f, s, g, h);
    } else {
      es, w := ArmedAhead(f, s, g, h);
    }
    es, w := BackAtTheGap(es, w, f, s, g, h);
    var c := if g < s then s else g;
    es, w := Thinks(es, w, c - g, h);
    assert Filtered(map[], c) == map[];
    es, w := Executes(es, w, Guarded("c", f), h);
  }
}
