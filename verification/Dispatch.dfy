/** Crash-consistent tool dispatch: the agent loop's memory, its durable record and its
    trajectory, and the steps that change them. A crash may fall between any two steps. */
module Dispatch {
  import opened Text
  import opened Trajectory
  import opened TrajectoryIntegrity

  const WINDOW := 8

  type Fingerprints = map<string, int>

  /** The durable record, replaced as a whole by every save; `through` is the watermark its
      summary states, and so the most that may be read from it. */
  datatype Saved = Saved(announced: seq<string>, fingerprints: Fingerprints, gap: Option<int>, through: int, next: int)

  /** What a running loop holds in memory; `cursor` is its current step. */
  datatype Memory = Memory(announced: seq<string>, fingerprints: Fingerprints, gap: Option<int>, through: int,
                           cursor: int)

  /** One call that may be executed. */
  datatype Action = Action(id: string, fingerprint: Option<string>, force: bool)

  /** Where in a step the loop is. */
  datatype Phase =
    | Idle
    | Announced(ids: seq<string>)
    | Gated(batch: seq<Action>)
    | Reserved(batch: seq<Action>)
    | InFlight(batch: seq<Action>)
    | Settled(batch: seq<Action>, won: seq<bool>)
    | Logged(batch: seq<Action>, won: seq<bool>)

  /** History: the calls really executed at a step. */
  datatype Dispatched = Dispatched(step: int, ids: seq<string>)

  /** `hot` is history: the guarded actions that succeeded or were never settled, and the
      step at which each last was so. */
  datatype World = World(
    disk: Option<Saved>,
    log: seq<Line>,
    memory: Option<Memory>,
    phase: Phase,
    dispatched: seq<Dispatched>,
    hot: Fingerprints)

  /** One step. A rollover made at some step leaves a summary with watermark `through`. */
  datatype Event =
    | Start
    | Think
    | Save(ahead: bool, ok: bool)
    | Rollover(step: int, through: int)
    | Announce(ids: seq<string>, ok: bool)
    | Gate(batch: seq<Action>)
    | Reserve(reordered: bool, ok: bool)
    | Dispatch
    | Settle(won: seq<bool>)
    | Append(group: Group, fault: Fault)
    | GroupSave(ok: bool)
    | Crash
    | Resume(readable: bool, through: int, ok: bool, reread: bool)

  const NEW_RUN := World(None, [], None, Idle, [], map[])

  // Announcing

  predicate Distinct(ids: seq<string>) {
    forall i, j :: 0 <= i < j < |ids| ==> ids[i] != ids[j]
  }

  /** The ids of a response that are valid, new to the response, and new to the run. */
  function Fresh(ids: seq<string>, announced: seq<string>, n: nat): seq<string>
    requires n <= |ids|
  {
    if n == 0 then []
    else
      var f := Fresh(ids, announced, n - 1);
      var id := ids[n - 1];
      if id == "" || id in ids[..n - 1] || id in announced then f else f + [id]
  }

  /** The n-th id is refused: missing, repeated in the response, or announced before. */
  predicate Refused(ids: seq<string>, announced: seq<string>, n: nat)
    requires n < |ids|
  {
    ids[n] == "" || ids[n] in ids[..n] || ids[n] in announced
  }

  function RefusedIds(ids: seq<string>, announced: seq<string>, n: nat): set<nat>
    requires n <= |ids|
  {
    if n == 0 then {}
    else RefusedIds(ids, announced, n - 1) + if Refused(ids, announced, n - 1) then {n - 1} else {}
  }

  lemma {:induction false} FreshAreFromIds(ids: seq<string>, announced: seq<string>, n: nat, id: string)
    requires n <= |ids| && id in Fresh(ids, announced, n)
    ensures id in ids[..n]
  {
    assert ids[..n] == ids[..n - 1] + [ids[n - 1]];
    if id in Fresh(ids, announced, n - 1) {
      FreshAreFromIds(ids, announced, n - 1, id);
    }
  }

  /** The ids of the response seen so far. */
  function Seen(ids: seq<string>, n: nat): set<string>
    requires n <= |ids|
  {
    if n == 0 then {} else if ids[n - 1] == "" then Seen(ids, n - 1) else Seen(ids, n - 1) + {ids[n - 1]}
  }

  lemma {:induction false} SeenIff(ids: seq<string>, n: nat, id: string)
    requires n <= |ids| && id != ""
    ensures id in Seen(ids, n) <==> id in ids[..n]
  {
    if n > 0 {
      assert ids[..n] == ids[..n - 1] + [ids[n - 1]];
      SeenIff(ids, n - 1, id);
    }
  }

  lemma {:induction false} NextId(ids: seq<string>, announced: seq<string>, n: nat, all: seq<string>,
                                  batch: set<string>)
    requires n < |ids| && all == announced + Fresh(ids, announced, n) && batch == Seen(ids, n)
    ensures Refused(ids, announced, n) <==> ids[n] == "" || ids[n] in batch || ids[n] in all
    ensures announced + Fresh(ids, announced, n + 1) == if Refused(ids, announced, n) then all else all + [ids[n]]
    ensures Seen(ids, n + 1) == if ids[n] == "" then batch else batch + {ids[n]}
  {
    if ids[n] != "" {
      SeenIff(ids, n, ids[n]);
      if ids[n] in Fresh(ids, announced, n) {
        FreshAreFromIds(ids, announced, n, ids[n]);
      }
    }
  }

  /** The identity loop. Missing ids are given as "". */
  method AnnounceIds(ids: seq<string>, announced: seq<string>) returns (all: seq<string>, refused: set<nat>)
    ensures all == announced + Fresh(ids, announced, |ids|)
    ensures refused == RefusedIds(ids, announced, |ids|)
  {
    all, refused := announced, {};
    var batch: set<string> := {};
    assert announced + Fresh(ids, announced, 0) == announced;
    for i := 0 to |ids|
      invariant all == announced + Fresh(ids, announced, i)
      invariant batch == Seen(ids, i)
      invariant refused == RefusedIds(ids, announced, i)
    {
      NextId(ids, announced, i, all, batch);
      var id := ids[i];
      if id == "" || id in batch {
        refused := refused + {i};
      } else {
        batch := batch + {id};
        if id in all {
          refused := refused + {i};
        } else {
          all := all + [id];
        }
      }
    }
  }

  // Fingerprints

  function Filtered(fps: Fingerprints, cursor: int): Fingerprints {
    map f | f in fps && 0 <= cursor - fps[f] <= WINDOW :: fps[f]
  }

  /** The fingerprints of the marked actions stand at this step. */
  function Marked(fps: Fingerprints, batch: seq<Action>, won: seq<bool>, step: int): Fingerprints
    requires |won| == |batch|
  {
    if batch == [] then fps
    else
      var n := |batch| - 1;
      var before := Marked(fps, batch[..n], won[..n], step);
      if won[n] && batch[n].fingerprint.Some? then before[batch[n].fingerprint.value := step] else before
  }

  function All(n: nat): seq<bool> { seq(n, _ => true) }

  function ReservedGap(m: Memory, batch: seq<Action>): Option<int> {
    if batch == [] then m.gap else LowerGap(m.gap, m.cursor)
  }

  function ReservedPrints(m: Memory, batch: seq<Action>): Fingerprints {
    Marked(m.fingerprints, batch, All(|batch|), m.cursor)
  }

  function Snapshot(m: Memory, next: int): Saved {
    Saved(m.announced, m.fingerprints, m.gap, m.through, next)
  }

  function IdsOf(batch: seq<Action>): (ids: seq<string>)
    ensures |ids| == |batch| && forall k :: 0 <= k < |ids| ==> ids[k] == batch[k].id
  {
    seq(|batch|, k requires 0 <= k < |batch| => batch[k].id)
  }

  /** The batch that a crash now would leave unsettled. */
  function Unsettled(p: Phase): seq<Action> {
    match p
    case Reserved(b) => b
    case InFlight(b) => b
    case Settled(b, _) => b
    case Logged(b, _) => b
    case _ => []
  }

  /** The loop is gone; what it had reserved stays reserved. */
  function Stopped(w: World): World
    requires w.memory.Some?
  {
    var m, batch := w.memory.value, Unsettled(w.phase);
    w.(memory := None, phase := Idle,
       hot := Marked(w.hot, batch, All(|batch|), m.cursor))
  }

  // Steps

  /** A save replaces the record, or leaves it as it is. */
  function SaveTo(disk: Option<Saved>, record: Saved, ok: bool): Option<Saved> {
    if ok then Some(record) else disk
  }

  predicate Running(w: World, p: Phase) {
    w.memory.Some? && w.phase == p
  }

  /** Fingerprints are hashes, written as 64 hexadecimal digits. */
  predicate Keyed(batch: seq<Action>) {
    forall k {:trigger batch[k]} :: 0 <= k < |batch| && batch[k].fingerprint.Some? ==>
      IsDigest(batch[k].fingerprint.value)
  }

  /** Every action of the batch is new, and unforced guarded actions are not repeated. */
  predicate MayGate(m: Memory, ids: seq<string>, batch: seq<Action>) {
    && Distinct(IdsOf(batch)) && Keyed(batch)
    && (forall k :: 0 <= k < |batch| ==> batch[k].id in ids)
    && (forall k :: 0 <= k < |batch| && batch[k].fingerprint.Some? && !batch[k].force ==>
          batch[k].fingerprint.value !in Filtered(m.fingerprints, m.cursor))
  }

  /** The group appended holds every call of the batch and marks them as executed. */
  predicate Covers(g: Group, batch: seq<Action>, step: int) {
    && g.step == step
    && (forall k :: 0 <= k < |batch| ==> batch[k].id in g.executed && Some(batch[k].id) in CallIds(g.calls))
  }

  function CallIds(calls: seq<ToolCall>): (ids: seq<Option<string>>)
    ensures |ids| == |calls| && forall k :: 0 <= k < |ids| ==> ids[k] == calls[k].id
  {
    seq(|calls|, k requires 0 <= k < |calls| => calls[k].id)
  }

  predicate Enabled(w: World, e: Event, h: Hash) {
    match e
    case Start => w.memory.None? && w.disk.None?
    case Think => Running(w, Idle)
    case Save(_, _) => Running(w, Idle)
    case Rollover(step, n) =>
      && Running(w, Idle) && step <= w.memory.value.cursor
      && 0 <= n <= Larger(w.memory.value.through, Tier3End(step, w.memory.value.gap))
    case Announce(_, _) => Running(w, Idle)
    case Gate(batch) => w.memory.Some? && w.phase.Announced? && MayGate(w.memory.value, w.phase.ids, batch)
    case Reserve(_, _) => w.memory.Some? && w.phase.Gated?
    case Dispatch => w.memory.Some? && w.phase.Reserved?
    case Settle(won) => w.memory.Some? && w.phase.InFlight? && |won| == |w.phase.batch|
    case Append(g, _) => w.memory.Some? && w.phase.Settled? && Covers(g, w.phase.batch, w.memory.value.cursor)
    case GroupSave(_) => w.memory.Some? && w.phase.Logged? && |w.phase.won| == |w.phase.batch|
    case Crash => w.memory.Some?
    case Resume(readable, through, _, _) =>
      w.memory.None? && w.disk.Some?
      && 0 <= through <= Larger(w.disk.value.through, LastTrusted(w, readable, h))
  }

  function Larger(a: int, b: int): int { if a > b then a else b }

  /** The last step recorded below the durable gap, or 0. */
  function LastTrusted(w: World, readable: bool, h: Hash): int
    requires w.disk.Some?
  {
    if !readable then 0
    else
      var rs := Decode(w.log, h).records;
      LastStep(if w.disk.value.gap.Some? then KeepUpTo(rs, w.disk.value.gap.value - 1) else rs)
  }

  /** Where a resumed run continues. */
  function ResumeStep(w: World, readable: bool, h: Hash): int
    requires w.disk.Some?
  {
    ResumeCursor(w.disk.value.next, w.disk.value.gap, LastTrusted(w, readable, h))
  }

  function Restored(r: Saved): Memory {
    Memory(r.announced, r.fingerprints, r.gap, r.through, r.next)
  }

  function AnnounceStep(w: World, ids: seq<string>, ok: bool): World
    requires w.memory.Some?
  {
    var m := w.memory.value;
    var added := Fresh(ids, m.announced, |ids|);
    var m' := m.(announced := m.announced + added);
    if added == [] then w.(phase := Announced([]))
    else if !ok then Stopped(w.(memory := Some(m'), phase := Idle))
    else w.(memory := Some(m'), phase := Announced(added), disk := Some(Snapshot(m', m.cursor)))
  }

  function GateStep(w: World, batch: seq<Action>): World
    requires w.memory.Some?
  {
    var m := w.memory.value;
    w.(memory := Some(m.(fingerprints := Filtered(m.fingerprints, m.cursor))), phase := Gated(batch))
  }

  /** The reservation is saved, if it changes anything or only the order of the
      fingerprints, and taken back in memory. */
  function ReserveStep(w: World, reordered: bool, ok: bool): World
    requires w.memory.Some? && w.phase.Gated?
  {
    var m, batch := w.memory.value, w.phase.batch;
    var reserved := m.(fingerprints := ReservedPrints(m, batch), gap := ReservedGap(m, batch));
    if reserved == m && !reordered then w.(phase := Reserved(batch))
    else if !ok then Stopped(w.(phase := Idle))
    else w.(phase := Reserved(batch), disk := Some(Snapshot(reserved, m.cursor)))
  }

  function DispatchStep(w: World): World
    requires w.memory.Some? && w.phase.Reserved?
  {
    var batch := w.phase.batch;
    w.(phase := InFlight(batch),
       dispatched := if batch == [] then w.dispatched
                     else w.dispatched + [Dispatched(w.memory.value.cursor, IdsOf(batch))])
  }

  function SettleStep(w: World, won: seq<bool>): World
    requires w.memory.Some? && w.phase.InFlight? && |won| == |w.phase.batch|
  {
    var m, batch := w.memory.value, w.phase.batch;
    w.(memory := Some(m.(fingerprints := Marked(m.fingerprints, batch, won, m.cursor))), phase := Settled(batch, won))
  }

  function AppendStep(w: World, g: Group, fault: Fault, h: Hash): World
    requires w.memory.Some? && w.phase.Settled?
  {
    var (after, outcome) := AppendTo(w.log, g, h, fault);
    var m := w.memory.value;
    w.(log := after, phase := Logged(w.phase.batch, w.phase.won),
       memory := Some(if outcome.Appended? then m else m.(gap := LowerGap(m.gap, m.cursor))))
  }

  function GroupSaveStep(w: World, ok: bool): World
    requires w.memory.Some? && w.phase.Logged? && |w.phase.won| == |w.phase.batch|
  {
    var m := w.memory.value;
    if !ok then Stopped(w)
    else w.(disk := Some(Snapshot(m, m.cursor + 1)), memory := Some(m.(cursor := m.cursor + 1)), phase := Idle,
            hot := Marked(w.hot, w.phase.batch, w.phase.won, m.cursor))
  }

  /** The rebuilt record is saved and read back; whichever of the two fails, the loop goes
      on with the record it had. */
  function ResumeStepTo(w: World, readable: bool, through: int, ok: bool, reread: bool, h: Hash): World
    requires w.disk.Some?
  {
    var r := w.disk.value;
    var rebuilt := r.(next := ResumeStep(w, readable, h), through := through);
    w.(disk := Some(if ok then rebuilt else r), memory := Some(Restored(if ok && reread then rebuilt else r)),
       phase := Idle)
  }

  function Next(w: World, e: Event, h: Hash): World
    requires Enabled(w, e, h)
  {
    match e
    case Start => w.(memory := Some(Memory([], map[], None, 0, 1)), phase := Idle)
    case Think => w.(memory := Some(w.memory.value.(cursor := w.memory.value.cursor + 1)))
    case Save(ahead, ok) =>
      var m := w.memory.value;
      w.(disk := SaveTo(w.disk, Snapshot(m, m.cursor + if ahead then 1 else 0), ok))
    case Rollover(_, n) => w.(memory := Some(w.memory.value.(through := n)))
    case Announce(ids, ok) => AnnounceStep(w, ids, ok)
    case Gate(batch) => GateStep(w, batch)
    case Reserve(reordered, ok) => ReserveStep(w, reordered, ok)
    case Dispatch => DispatchStep(w)
    case Settle(won) => SettleStep(w, won)
    case Append(g, fault) => AppendStep(w, g, fault, h)
    case GroupSave(ok) => GroupSaveStep(w, ok)
    case Crash => Stopped(w)
    case Resume(readable, through, ok, reread) => ResumeStepTo(w, readable, through, ok, reread, h)
  }

  /** A run of enabled steps from v to w. */
  ghost predicate Leads(v: World, es: seq<Event>, w: World, h: Hash)
    decreases |es|
  {
    if es == [] then v == w else Enabled(v, es[0], h) && Leads(Next(v, es[0], h), es[1..], w, h)
  }
}
