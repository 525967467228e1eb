/** What every run of the dispatch protocol keeps, across any crashes and resumes. */
module DispatchSafety {
  import opened Text
  import opened Trajectory
  import opened TrajectoryIntegrity
  import opened Dispatch

  // What is kept

  /** The trusted log holds the record of an executed call. */
  ghost predicate HasRecord(rs: seq<Record>, step: int, id: string) {
    exists k :: 0 <= k < |rs| && rs[k].body.step == step && rs[k].body.callId == id && rs[k].body.executed
  }

  ghost predicate Recorded(rs: seq<Record>, d: Dispatched) {
    forall k :: 0 <= k < |d.ids| ==> HasRecord(rs, d.step, d.ids[k])
  }

  predicate Covered(gap: Option<int>, step: int) {
    gap.Some? && gap.value <= step
  }

  /** Every dispatched step has all its records, or the gap is at or below it. */
  ghost predicate Lined(rs: seq<Record>, ds: seq<Dispatched>, gap: Option<int>) {
    forall k {:trigger ds[k]} :: 0 <= k < |ds| ==> Recorded(rs, ds[k]) || Covered(gap, ds[k].step)
  }

  /** Executed call ids, in order. */
  function AllIds(ds: seq<Dispatched>): seq<string> {
    if ds == [] then [] else AllIds(ds[..|ds| - 1]) + ds[|ds| - 1].ids
  }

  ghost predicate Subset(a: seq<string>, b: seq<string>) {
    forall k {:trigger a[k]} :: 0 <= k < |a| ==> a[k] in b
  }

  ghost predicate Disjoint(a: seq<string>, b: seq<string>) {
    forall k {:trigger a[k]} :: 0 <= k < |a| ==> a[k] !in b
  }

  ghost predicate GoodPrints(fps: Fingerprints) {
    forall f {:trigger fps[f]} :: f in fps ==> fps[f] >= 1 && IsDigest(f)
  }

  /** Ids are distinct and non-empty, the steps positive, fingerprints hashes, the watermark below step and gap:
      what run_state.load demands of a record, and more. */
  ghost predicate GoodFields(announced: seq<string>, fps: Fingerprints, gap: Option<int>, through: int, step: int) {
    && Distinct(announced) && "" !in announced
    && GoodPrints(fps)
    && 0 <= through < step && (gap.Some? ==> through < gap.value)
  }

  /** The step of a hot action is still in the fingerprint list, or the loop has passed its
      window, or will come back to a gap before the window's end. */
  predicate Guards(fps: Fingerprints, f: string, step: int, gap: Option<int>, at: int) {
    || (f in fps && fps[f] == step)
    || at > step + WINDOW
    || Covered(gap, step + WINDOW)
  }

  /** So it is for every hot action, and none lies ahead without a gap at or below it. */
  ghost predicate Guarding(fps: Fingerprints, hot: Fingerprints, gap: Option<int>, at: int) {
    forall f {:trigger hot[f]} :: f in hot ==>
      Guards(fps, f, hot[f], gap, at) && (hot[f] <= at || Covered(gap, hot[f]))
  }

  ghost predicate Within(a: Fingerprints, b: Fingerprints) {
    forall f {:trigger a[f]} :: f in a ==> f in b && b[f] == a[f]
  }

  /** The hot actions, should the loop crash now. */
  function HotNow(w: World): Fingerprints {
    if w.memory.None? then w.hot
    else
      var m, batch := w.memory.value, Unsettled(w.phase);
      Marked(w.hot, batch, All(|batch|), m.cursor)
  }

  ghost predicate DurableWith(r: Saved, rs: seq<Record>, ds: seq<Dispatched>, hot: Fingerprints) {
    && GoodFields(r.announced, r.fingerprints, r.gap, r.through, r.next)
    && Lined(rs, ds, r.gap)
    && Subset(AllIds(ds), r.announced)
    && Guarding(r.fingerprints, hot, r.gap, r.next)
  }

  ghost predicate Durable(disk: Option<Saved>, rs: seq<Record>, ds: seq<Dispatched>, hot: Fingerprints) {
    && Distinct(AllIds(ds))
    && (disk.None? ==> ds == [] && hot == map[])
    && (disk.Some? ==> DurableWith(disk.value, rs, ds, hot))
  }

  ghost predicate GoodMemory(m: Memory) {
    GoodFields(m.announced, m.fingerprints, m.gap, m.through, m.cursor)
  }

  /** Memory between two dispatches. */
  ghost predicate Settling(m: Memory, rs: seq<Record>, ds: seq<Dispatched>, hot: Fingerprints) {
    && GoodMemory(m) && Lined(rs, ds, m.gap)
    && Guarding(m.fingerprints, hot, m.gap, m.cursor)
  }

  /** Memory and record say the same about gap and fingerprints. */
  ghost predicate InStep(m: Memory, disk: Option<Saved>) {
    disk.Some? ==> disk.value.gap == m.gap && Within(m.fingerprints, disk.value.fingerprints)
  }

  ghost predicate Known(m: Memory, disk: Option<Saved>) {
    disk.Some? ==> Subset(disk.value.announced, m.announced)
  }

  /** These ids are durably announced at this step and nothing of them is executed yet. */
  ghost predicate Pending(ids: seq<string>, m: Memory, disk: Option<Saved>, ds: seq<Dispatched>) {
    && Disjoint(ids, AllIds(ds))
    && (ids != [] ==> disk.Some? && Subset(ids, disk.value.announced) && disk.value.next == m.cursor)
  }

  ghost predicate PendingBatch(batch: seq<Action>, m: Memory, disk: Option<Saved>, ds: seq<Dispatched>) {
    Distinct(IdsOf(batch)) && Keyed(batch) && Pending(IdsOf(batch), m, disk, ds)
  }

  ghost predicate Claimed(batch: seq<Action>, m: Memory, disk: Option<Saved>) {
    batch != [] ==> disk.Some? && Covered(disk.value.gap, m.cursor)
  }

  /** All dispatches but the one in flight. */
  ghost predicate LastIs(ds: seq<Dispatched>, batch: seq<Action>, step: int) {
    batch != [] ==> ds != [] && ds[|ds| - 1] == Dispatched(step, IdsOf(batch))
  }

  function Earlier(ds: seq<Dispatched>, batch: seq<Action>): seq<Dispatched> {
    if batch == [] || ds == [] then ds else ds[..|ds| - 1]
  }

  function HeatedBy(w: World, m: Memory, batch: seq<Action>, won: seq<bool>): Fingerprints
    requires |won| == |batch|
  {
    Marked(w.hot, batch, won, m.cursor)
  }

  ghost predicate RunningWell(w: World, m: Memory, rs: seq<Record>) {
    match w.phase
    case Idle => Settling(m, rs, w.dispatched, w.hot) && InStep(m, w.disk)
    case Announced(ids) =>
      Settling(m, rs, w.dispatched, w.hot) && InStep(m, w.disk) && Pending(ids, m, w.disk, w.dispatched)
    case Gated(batch) =>
      Settling(m, rs, w.dispatched, w.hot) && InStep(m, w.disk) && PendingBatch(batch, m, w.disk, w.dispatched)
    case Reserved(batch) =>
      Settling(m, rs, w.dispatched, w.hot) && PendingBatch(batch, m, w.disk, w.dispatched) && Claimed(batch, m, w.disk)
    case InFlight(batch) =>
      Keyed(batch) && Settling(m, rs, Earlier(w.dispatched, batch), w.hot) && LastIs(w.dispatched, batch, m.cursor)
    case Settled(batch, won) =>
      && |won| == |batch| && LastIs(w.dispatched, batch, m.cursor)
      && Settling(m, rs, Earlier(w.dispatched, batch), HeatedBy(w, m, batch, won))
    case Logged(batch, won) =>
      |won| == |batch| && Settling(m, rs, w.dispatched, HeatedBy(w, m, batch, won))
  }

  ghost predicate Inv(w: World, h: Hash) {
    var rs := Decode(w.log, h).records;
    && Durable(w.disk, rs, w.dispatched, HotNow(w))
    && (w.memory.Some? ==> Known(w.memory.value, w.disk) && RunningWell(w, w.memory.value, rs))
  }

  // Small facts

  lemma {:induction false} FreshIds(ids: seq<string>, announced: seq<string>, n: nat)
    requires n <= |ids|
    ensures var f := Fresh(ids, announced, n);
      Distinct(f) && "" !in f && Disjoint(f, announced) && (forall id :: id in f ==> id in ids[..n])
  {
    if n > 0 {
      FreshIds(ids, announced, n - 1);
      assert ids[..n] == ids[..n - 1] + [ids[n - 1]];
    }
  }

  lemma {:induction false} DistinctConcat(a: seq<string>, b: seq<string>)
    requires Distinct(a) && Distinct(b) && Disjoint(b, a)
    ensures Distinct(a + b)
  {}

  lemma {:induction false} LowerCovers(gap: Option<int>, step: int, s: int)
    ensures Covered(LowerGap(gap, step), step)
    ensures Covered(gap, s) ==> Covered(LowerGap(gap, step), s)
  {}

  lemma {:induction false} LinedLower(rs: seq<Record>, ds: seq<Dispatched>, gap: Option<int>, step: int)
    requires Lined(rs, ds, gap)
    ensures Lined(rs, ds, LowerGap(gap, step))
  {}

  /** A lower gap and a later step guard no less. */
  lemma {:induction false} GuardingLater(fps: Fingerprints, hot: Fingerprints, gap: Option<int>, lower: Option<int>,
                                         at: int, later: int)
    requires Guarding(fps, hot, gap, at) && at <= later
    requires gap.Some? ==> lower.Some? && lower.value <= gap.value
    ensures Guarding(fps, hot, lower, later)
  {}

  /** Marking the same actions among fingerprints and hot actions keeps the guard. */
  lemma {:induction false} MarkGuards(fps: Fingerprints, hot: Fingerprints, batch: seq<Action>, won: seq<bool>,
                                      step: int, gap: Option<int>, at: int)
    requires |won| == |batch| && Guarding(fps, hot, gap, at) && step <= at
    ensures Guarding(Marked(fps, batch, won, step), Marked(hot, batch, won, step), gap, at)
  {
    if batch != [] {
      var n := |batch| - 1;
      MarkGuards(fps, hot, batch[..n], won[..n], step, gap, at);
    }
  }

  lemma {:induction false} MarkPrints(fps: Fingerprints, batch: seq<Action>, won: seq<bool>, step: int)
    requires |won| == |batch| && step >= 1 && GoodPrints(fps) && Keyed(batch)
    ensures GoodPrints(Marked(fps, batch, won, step))
  {
    if batch != [] {
      var n := |batch| - 1;
      MarkPrints(fps, batch[..n], won[..n], step);
    }
  }

  lemma {:induction false} GuardingWithin(a: Fingerprints, b: Fingerprints, hot: Fingerprints, gap: Option<int>,
                                          at: int)
    requires Guarding(a, hot, gap, at) && Within(a, b)
    ensures Guarding(b, hot, gap, at)
  {}

  lemma {:induction false} NothingMarked(hot: Fingerprints, step: int)
    ensures Marked(hot, [], All(0), step) == hot
  {}

  lemma {:induction false} RecordedMore(rs: seq<Record>, more: seq<Record>, d: Dispatched)
    requires Recorded(rs, d)
    ensures Recorded(rs + more, d)
  {
    forall k | 0 <= k < |d.ids|
      ensures HasRecord(rs + more, d.step, d.ids[k])
    {
      assert HasRecord(rs, d.step, d.ids[k]);
      var j :| 0 <= j < |rs| && rs[j].body.step == d.step && rs[j].body.callId == d.ids[k] && rs[j].body.executed;
      assert (rs + more)[j] == rs[j];
    }
  }

  lemma {:induction false} LinedMore(rs: seq<Record>, more: seq<Record>, ds: seq<Dispatched>, gap: Option<int>)
    requires Lined(rs, ds, gap)
    ensures Lined(rs + more, ds, gap)
  {
    forall k | 0 <= k < |ds|
      ensures Recorded(rs + more, ds[k]) || Covered(gap, ds[k].step)
    {
      if Recorded(rs, ds[k]) {
        RecordedMore(rs, more, ds[k]);
      }
    }
  }

  // Every step keeps the invariant

  lemma {:induction false} StopKeeps(w: World, h: Hash)
    requires Inv(w, h) && w.memory.Some?
    ensures Inv(Stopped(w), h)
  {}

  lemma {:induction false} ThinkKeeps(w: World, h: Hash)
    requires Inv(w, h) && Enabled(w, Think, h)
    ensures Inv(Next(w, Think, h), h)
  {
    NothingMarked(w.hot, w.memory.value.cursor);
    NothingMarked(w.hot, w.memory.value.cursor + 1);
  }

  /** A new watermark is below step and gap, because the old one and the end of Tier 3 are. */
  lemma {:induction false} RolloverKeeps(w: World, step: int, n: int, h: Hash)
    requires Inv(w, h) && Enabled(w, Rollover(step, n), h)
    ensures Inv(Next(w, Rollover(step, n), h), h)
  {}

  /** Memory between dispatches can be saved, at its step or a later one. */
  lemma {:induction false} SavedIsDurable(m: Memory, next: int, rs: seq<Record>, ds: seq<Dispatched>,
                                          hot: Fingerprints)
    requires Settling(m, rs, ds, hot) && m.cursor <= next
    requires Distinct(AllIds(ds)) && Subset(AllIds(ds), m.announced)
    ensures Durable(Some(Snapshot(m, next)), rs, ds, hot)
  {}

  lemma {:induction false} IdsKnown(ds: seq<Dispatched>, m: Memory, disk: Option<Saved>, rs: seq<Record>,
                                    hot: Fingerprints)
    requires Durable(disk, rs, ds, hot) && Known(m, disk)
    ensures Subset(AllIds(ds), m.announced)
  {}

  lemma {:induction false} SaveKeeps(w: World, ahead: bool, ok: bool, h: Hash)
    requires Inv(w, h) && Enabled(w, Save(ahead, ok), h)
    ensures Inv(Next(w, Save(ahead, ok), h), h)
  {
    var m, rs := w.memory.value, Decode(w.log, h).records;
    NothingMarked(w.hot, m.cursor);
    if ok {
      IdsKnown(w.dispatched, m, w.disk, rs, w.hot);
      SavedIsDurable(m, m.cursor + if ahead then 1 else 0, rs, w.dispatched, w.hot);
    }
  }

  lemma {:induction false} AnnounceKeeps(w: World, ids: seq<string>, ok: bool, h: Hash)
    requires Inv(w, h) && Enabled(w, Announce(ids, ok), h)
    ensures Inv(Next(w, Announce(ids, ok), h), h)
  {
    var m, rs := w.memory.value, Decode(w.log, h).records;
    var added := Fresh(ids, m.announced, |ids|);
    FreshIds(ids, m.announced, |ids|);
    NothingMarked(w.hot, m.cursor);
    IdsKnown(w.dispatched, m, w.disk, rs, w.hot);
    if added != [] {
      DistinctConcat(m.announced, added);
      var m' := m.(announced := m.announced + added);
      if ok {
        SavedIsDurable(m', m'.cursor, rs, w.dispatched, w.hot);
      }
    }
  }

  /** What the filter drops lies behind its window, or ahead above a gap. */
  lemma {:induction false} FilterGuards(fps: Fingerprints, hot: Fingerprints, gap: Option<int>, cursor: int)
    requires Guarding(fps, hot, gap, cursor)
    ensures Guarding(Filtered(fps, cursor), hot, gap, cursor)
  {}

  lemma {:induction false} FilterWithin(fps: Fingerprints, cursor: int)
    ensures Within(Filtered(fps, cursor), fps)
    ensures GoodPrints(fps) ==> GoodPrints(Filtered(fps, cursor))
  {}

  lemma {:induction false} WithinTrans(a: Fingerprints, b: Fingerprints, c: Fingerprints)
    requires Within(a, b) && Within(b, c)
    ensures Within(a, c)
  {}

  lemma {:induction false} GatePending(m: Memory, ids: seq<string>, batch: seq<Action>, disk: Option<Saved>,
                                       ds: seq<Dispatched>)
    requires MayGate(m, ids, batch) && Pending(ids, m, disk, ds)
    ensures PendingBatch(batch, m.(fingerprints := Filtered(m.fingerprints, m.cursor)), disk, ds)
  {
    var bs := IdsOf(batch);
    forall k | 0 <= k < |bs|
      ensures bs[k] in ids && bs[k] !in AllIds(ds)
    {
      assert batch[k].id in ids;
      var j :| 0 <= j < |ids| && ids[j] == bs[k];
    }
    if bs != [] {
      assert bs[0] in ids;
    }
  }

  lemma {:induction false} GateKeeps(w: World, batch: seq<Action>, h: Hash)
    requires Inv(w, h) && Enabled(w, Gate(batch), h)
    ensures Inv(Next(w, Gate(batch), h), h)
  {
    var m, rs := w.memory.value, Decode(w.log, h).records;
    NothingMarked(w.hot, m.cursor);
    FilterGuards(m.fingerprints, w.hot, m.gap, m.cursor);
    FilterWithin(m.fingerprints, m.cursor);
    GatePending(m, w.phase.ids, batch, w.disk, w.dispatched);
    if w.disk.Some? {
      WithinTrans(Filtered(m.fingerprints, m.cursor), m.fingerprints, w.disk.value.fingerprints);
    }
  }

  /** The reservation, saved: fingerprints and gap of the batch stand at the current step. */
  lemma {:induction false} ReservationIsDurable(m: Memory, batch: seq<Action>, rs: seq<Record>, ds: seq<Dispatched>,
                                                hot: Fingerprints)
    requires Keyed(batch) && Settling(m, rs, ds, hot) && Distinct(AllIds(ds)) && Subset(AllIds(ds), m.announced)
    ensures var reserved := m.(fingerprints := ReservedPrints(m, batch), gap := ReservedGap(m, batch));
      Durable(Some(Snapshot(reserved, m.cursor)), rs, ds, Marked(hot, batch, All(|batch|), m.cursor))
  {
    var marked := Marked(hot, batch, All(|batch|), m.cursor);
    MarkGuards(m.fingerprints, hot, batch, All(|batch|), m.cursor, m.gap, m.cursor);
    MarkPrints(m.fingerprints, batch, All(|batch|), m.cursor);
    if batch != [] {
      LinedLower(rs, ds, m.gap, m.cursor);
      GuardingLater(ReservedPrints(m, batch), marked, m.gap, ReservedGap(m, batch), m.cursor, m.cursor);
    }
  }

  /** A reservation that changes nothing in memory is already on disk. */
  lemma {:induction false} UnchangedReservation(m: Memory, batch: seq<Action>, disk: Option<Saved>, rs: seq<Record>,
                                                ds: seq<Dispatched>, hot: Fingerprints)
    requires Durable(disk, rs, ds, hot) && Settling(m, rs, ds, hot) && InStep(m, disk)
    requires ReservedPrints(m, batch) == m.fingerprints && ReservedGap(m, batch) == m.gap
    requires batch != [] ==> disk.Some? && disk.value.next == m.cursor
    ensures Durable(disk, rs, ds, Marked(hot, batch, All(|batch|), m.cursor))
    ensures Claimed(batch, m, disk)
  {
    if batch == [] {
      NothingMarked(hot, m.cursor);
    } else {
      var r, marked := disk.value, Marked(hot, batch, All(|batch|), m.cursor);
      MarkGuards(m.fingerprints, hot, batch, All(|batch|), m.cursor, m.gap, m.cursor);
      GuardingWithin(m.fingerprints, r.fingerprints, marked, m.gap, m.cursor);
      LowerCovers(m.gap, m.cursor, m.cursor);
    }
  }

  lemma {:induction false} ReserveKeeps(w: World, reordered: bool, ok: bool, h: Hash)
    requires Inv(w, h) && Enabled(w, Reserve(reordered, ok), h)
    ensures Inv(Next(w, Reserve(reordered, ok), h), h)
  {
    var m, rs, batch := w.memory.value, Decode(w.log, h).records, w.phase.batch;
    var reserved := m.(fingerprints := ReservedPrints(m, batch), gap := ReservedGap(m, batch));
    NothingMarked(w.hot, m.cursor);
    if reserved == m && !reordered {
      UnchangedReservation(m, batch, w.disk, rs, w.dispatched, w.hot);
    } else if ok {
      IdsKnown(w.dispatched, m, w.disk, rs, w.hot);
      ReservationIsDurable(m, batch, rs, w.dispatched, w.hot);
      SavedBatch(m, batch, w.disk, w.dispatched, reserved);
    }
  }

  lemma {:induction false} SavedBatch(m: Memory, batch: seq<Action>, disk: Option<Saved>, ds: seq<Dispatched>,
                                      reserved: Memory)
    requires PendingBatch(batch, m, disk, ds) && Known(m, disk) && reserved.announced == m.announced
    requires reserved.gap == ReservedGap(m, batch)
    ensures PendingBatch(batch, m, Some(Snapshot(reserved, m.cursor)), ds)
    ensures Claimed(batch, m, Some(Snapshot(reserved, m.cursor)))
    ensures Known(m, Some(Snapshot(reserved, m.cursor)))
  {
    LowerCovers(m.gap, m.cursor, m.cursor);
  }

  lemma {:induction false} AllIdsMore(ds: seq<Dispatched>, d: Dispatched)
    ensures AllIds(ds + [d]) == AllIds(ds) + d.ids
  {
    assert (ds + [d])[..|ds|] == ds;
  }

  lemma {:induction false} DispatchedIsDurable(disk: Option<Saved>, rs: seq<Record>, ds: seq<Dispatched>,
                                               hot: Fingerprints,
                                               m: Memory, batch: seq<Action>)
    requires Durable(disk, rs, ds, hot) && PendingBatch(batch, m, disk, ds) && Claimed(batch, m, disk) && batch != []
    ensures Durable(disk, rs, ds + [Dispatched(m.cursor, IdsOf(batch))], hot)
  {
    var d := Dispatched(m.cursor, IdsOf(batch));
    AllIdsMore(ds, d);
    DistinctConcat(AllIds(ds), d.ids);
  }

  lemma {:induction false} DispatchKeeps(w: World, h: Hash)
    requires Inv(w, h) && Enabled(w, Event.Dispatch, h)
    ensures Inv(Next(w, Event.Dispatch, h), h)
  {
    var m, rs, batch := w.memory.value, Decode(w.log, h).records, w.phase.batch;
    if batch != [] {
      DispatchedIsDurable(w.disk, rs, w.dispatched, HotNow(w), m, batch);
      assert (w.dispatched + [Dispatched(m.cursor, IdsOf(batch))])[..|w.dispatched|] == w.dispatched;
    }
  }

  lemma {:induction false} SettleKeeps(w: World, won: seq<bool>, h: Hash)
    requires Inv(w, h) && Enabled(w, Settle(won), h)
    ensures Inv(Next(w, Settle(won), h), h)
  {
    var m, batch := w.memory.value, w.phase.batch;
    MarkGuards(m.fingerprints, w.hot, batch, won, m.cursor, m.gap, m.cursor);
    MarkPrints(m.fingerprints, batch, won, m.cursor);
  }

  lemma {:induction false} GroupRecordAt(g: Group, parent: Option<string>, h: Hash, n: nat, k: nat)
    requires k < n <= |g.calls| == |g.results|
    ensures var body := GroupRecords(g, parent, h, n)[k].body;
      && body.step == g.step && (g.calls[k].id.Some? ==> body.callId == g.calls[k].id.value)
      && (body.executed <==> Claims(g.calls[k], Unclaimed(g.calls, g.executed, k)))
  {
    var before := GroupRecords(g, parent, h, n - 1);
    if k < n - 1 {
      GroupRecordAt(g, parent, h, n - 1, k);
      assert GroupRecords(g, parent, h, n)[k] == before[k];
    }
  }

  /** The first call with a given id. */
  lemma {:induction false} FirstCall(calls: seq<ToolCall>, id: string, n: nat) returns (k: nat)
    requires n <= |calls| && Some(id) in CallIds(calls)[..n]
    ensures k < n && calls[k].id == Some(id) && forall j :: 0 <= j < k ==> calls[j].id != Some(id)
  {
    var ids := CallIds(calls);
    if Some(id) in ids[..n - 1] {
      k := FirstCall(calls, id, n - 1);
    } else {
      assert ids[..n] == ids[..n - 1] + [ids[n - 1]];
      k := n - 1;
      assert forall j :: 0 <= j < k ==> ids[..k][j] == ids[j];
    }
  }

  /** A whole group holds the record of every executed call. */
  lemma {:induction false} GroupHasRecord(g: Group, parent: Option<string>, h: Hash, id: string)
    requires |g.calls| == |g.results| && id != "" && id in g.executed && Some(id) in CallIds(g.calls)
    ensures HasRecord(GroupRecords(g, parent, h, |g.calls|), g.step, id)
  {
    assert CallIds(g.calls)[..|g.calls|] == CallIds(g.calls);
    var k := FirstCall(g.calls, id, |g.calls|);
    ClaimsIff(g.calls, g.executed, k);
    GroupRecordAt(g, parent, h, |g.calls|, k);
  }

  lemma {:induction false} GroupRecorded(g: Group, batch: seq<Action>, parent: Option<string>, h: Hash, step: int)
    requires |g.calls| == |g.results| && Covers(g, batch, step) && "" !in IdsOf(batch)
    ensures Recorded(GroupRecords(g, parent, h, |g.calls|), Dispatched(step, IdsOf(batch)))
  {
    forall k | 0 <= k < |batch|
      ensures HasRecord(GroupRecords(g, parent, h, |g.calls|), step, IdsOf(batch)[k])
    {
      assert IdsOf(batch)[k] == batch[k].id;
      GroupHasRecord(g, parent, h, batch[k].id);
    }
  }

  lemma {:induction false} RecordedBehind(rs: seq<Record>, more: seq<Record>, d: Dispatched)
    requires Recorded(more, d)
    ensures Recorded(rs + more, d)
  {
    forall k | 0 <= k < |d.ids|
      ensures HasRecord(rs + more, d.step, d.ids[k])
    {
      assert HasRecord(more, d.step, d.ids[k]);
      var j :| 0 <= j < |more| && more[j].body.step == d.step && more[j].body.callId == d.ids[k]
        && more[j].body.executed;
      assert (rs + more)[|rs| + j] == more[j];
    }
  }

  /** What an append leaves of the trusted records: the old ones and, if it succeeded,
      all of the batch. */
  lemma {:induction false} AppendRecords(log: seq<Line>, g: Group, fault: Fault, h: Hash, batch: seq<Action>, step: int)
    returns (more: seq<Record>)
    requires Digests(h) && Covers(g, batch, step) && "" !in IdsOf(batch)
    ensures var (after, outcome) := AppendTo(log, g, h, fault);
      && Decode(after, h).records == Decode(log, h).records + more
      && (outcome.Appended? ==> Recorded(more, Dispatched(step, IdsOf(batch))))
  {
    var rs := Decode(log, h).records;
    AppendIsAtomic(log, g, h, fault);
    var (after, outcome) := AppendTo(log, g, h, fault);
    more := [];
    assert rs + [] == rs;
    if outcome.Appended? {
      more := outcome.records;
      GroupRecorded(g, batch, LastId(rs), h, step);
      assert g.calls == [] ==> GroupRecords(g, LastId(rs), h, 0) == [];
    } else if outcome.WriteFailed? && Decode(after, h).records != rs {
      more := NewRecords(log, g, h);
    }
  }

  lemma {:induction false} LinedBatch(rs: seq<Record>, more: seq<Record>, ds: seq<Dispatched>, batch: seq<Action>,
                                      gap: Option<int>,
                                      step: int)
    requires LastIs(ds, batch, step) && Lined(rs, Earlier(ds, batch), gap)
    requires batch != [] ==> Recorded(more, Dispatched(step, IdsOf(batch))) || Covered(gap, step)
    ensures Lined(rs + more, ds, gap)
  {
    LinedMore(rs, more, Earlier(ds, batch), gap);
    forall k | 0 <= k < |ds|
      ensures Recorded(rs + more, ds[k]) || Covered(gap, ds[k].step)
    {
      if k < |Earlier(ds, batch)| {
        assert Earlier(ds, batch)[k] == ds[k];
      } else if Recorded(more, ds[k]) {
        RecordedBehind(rs, more, ds[k]);
      }
    }
  }

  lemma {:induction false} DurableMore(disk: Option<Saved>, rs: seq<Record>, more: seq<Record>, ds: seq<Dispatched>,
                                       hot: Fingerprints)
    requires Durable(disk, rs, ds, hot)
    ensures Durable(disk, rs + more, ds, hot)
  {
    if disk.Some? {
      LinedMore(rs, more, ds, disk.value.gap);
    }
  }

  /** A failed append lowers the gap to the current step. */
  lemma {:induction false} GapLatched(m: Memory, hot: Fingerprints)
    requires GoodMemory(m) && Guarding(m.fingerprints, hot, m.gap, m.cursor)
    ensures var m' := m.(gap := LowerGap(m.gap, m.cursor));
      GoodMemory(m') && Guarding(m'.fingerprints, hot, m'.gap, m'.cursor)
  {
    GuardingLater(m.fingerprints, hot, m.gap, LowerGap(m.gap, m.cursor), m.cursor, m.cursor);
  }

  lemma {:induction false} NamedWithin(before: seq<string>, ids: seq<string>, announced: seq<string>)
    requires Subset(before + ids, announced) && "" !in announced
    ensures "" !in ids
  {
    assert forall k :: 0 <= k < |ids| ==> (before + ids)[|before| + k] == ids[k];
  }

  lemma {:induction false} LastIds(ds: seq<Dispatched>) returns (before: seq<string>)
    requires ds != []
    ensures AllIds(ds) == before + ds[|ds| - 1].ids
  {
    before := AllIds(ds[..|ds| - 1]);
  }

  lemma {:induction false} BatchNamed(ds: seq<Dispatched>, batch: seq<Action>, disk: Option<Saved>, rs: seq<Record>,
                                      hot: Fingerprints, step: int)
    requires Durable(disk, rs, ds, hot) && LastIs(ds, batch, step)
    ensures "" !in IdsOf(batch)
  {
    if batch != [] {
      var before := LastIds(ds);
      NamedWithin(before, IdsOf(batch), disk.value.announced);
    }
  }

  lemma {:induction false} AppendKeeps(w: World, g: Group, fault: Fault, h: Hash)
    requires Digests(h) && Inv(w, h) && Enabled(w, Append(g, fault), h)
    ensures Inv(Next(w, Append(g, fault), h), h)
  {
    var m, rs, batch, won := w.memory.value, Decode(w.log, h).records, w.phase.batch, w.phase.won;
    var (after, outcome) := AppendTo(w.log, g, h, fault);
    BatchNamed(w.dispatched, batch, w.disk, rs, HotNow(w), m.cursor);
    var more := AppendRecords(w.log, g, fault, h, batch, m.cursor);
    DurableMore(w.disk, rs, more, w.dispatched, HotNow(w));
    if outcome.Appended? {
      LinedBatch(rs, more, w.dispatched, batch, m.gap, m.cursor);
    } else {
      GapLatched(m, HeatedBy(w, m, batch, won));
      LinedLower(rs, Earlier(w.dispatched, batch), m.gap, m.cursor);
      LowerCovers(m.gap, m.cursor, m.cursor);
      LinedBatch(rs, more, w.dispatched, batch, LowerGap(m.gap, m.cursor), m.cursor);
    }
  }

  lemma {:induction false} GroupSaveKeeps(w: World, ok: bool, h: Hash)
    requires Inv(w, h) && Enabled(w, GroupSave(ok), h)
    ensures Inv(Next(w, GroupSave(ok), h), h)
  {
    var m, rs, batch, won := w.memory.value, Decode(w.log, h).records, w.phase.batch, w.phase.won;
    if ok {
      var hot := HeatedBy(w, m, batch, won);
      IdsKnown(w.dispatched, m, w.disk, rs, HotNow(w));
      SavedIsDurable(m, m.cursor + 1, rs, w.dispatched, hot);
      NothingMarked(hot, m.cursor + 1);
    }
  }

  lemma {:induction false} TrustedBelowGap(rs: seq<Record>, gap: int)
    requires gap >= 1
    ensures LastStep(KeepUpTo(rs, gap - 1)) < gap
  {
    if rs != [] {
      TrustedBelowGap(rs[..|rs| - 1], gap);
    }
  }

  lemma {:induction false} RestoredIsSettling(r: Saved, rs: seq<Record>, ds: seq<Dispatched>, hot: Fingerprints,
                                              next: int, through: int)
    requires DurableWith(r, rs, ds, hot) && 0 <= through < next && (r.gap.Some? ==> through < r.gap.value)
    requires next >= r.next || (r.gap.Some? && next == r.gap.value)
    ensures DurableWith(r.(next := next, through := through), rs, ds, hot)
    ensures Settling(Restored(r.(next := next, through := through)), rs, ds, hot)
  {}

  lemma {:induction false} ResumeKeeps(w: World, readable: bool, through: int, ok: bool, reread: bool, h: Hash)
    requires Inv(w, h) && Enabled(w, Resume(readable, through, ok, reread), h)
    ensures Inv(Next(w, Resume(readable, through, ok, reread), h), h)
  {
    var r, rs := w.disk.value, Decode(w.log, h).records;
    if r.gap.Some? {
      TrustedBelowGap(rs, r.gap.value);
    }
    RestoredIsSettling(r, rs, w.dispatched, w.hot, ResumeStep(w, readable, h), through);
    RestoredIsSettling(r, rs, w.dispatched, w.hot, r.next, r.through);
    NothingMarked(w.hot, if ok && reread then ResumeStep(w, readable, h) else r.next);
  }

  lemma {:induction false} NewRunIsGood(h: Hash)
    ensures Inv(NEW_RUN, h)
  {}

  /** A run that never saved a record starts anew, whatever its log holds. */
  lemma {:induction false} StartKeeps(w: World, h: Hash)
    requires Inv(w, h) && Enabled(w, Start, h)
    ensures Inv(Next(w, Start, h), h)
  {
    NothingMarked(w.hot, 1);
  }

  /** The steps that execute a batch. */
  predicate Executing(e: Event) {
    e.Reserve? || e.Dispatch? || e.Settle? || e.Append? || e.GroupSave?
  }

  lemma {:induction false} ExecutionKeeps(w: World, e: Event, h: Hash)
    requires Digests(h) && Inv(w, h) && Enabled(w, e, h) && Executing(e)
    ensures Inv(Next(w, e, h), h)
  {
    match e {
      case Reserve(reordered, ok) => ReserveKeeps(w, reordered, ok, h);
      case Dispatch => DispatchKeeps(w, h);
      case Settle(won) => SettleKeeps(w, won, h);
      case Append(g, fault) => AppendKeeps(w, g, fault, h);
      case GroupSave(ok) => GroupSaveKeeps(w, ok, h);
    }
  }

  lemma {:induction false} OtherStepKeeps(w: World, e: Event, h: Hash)
    requires Inv(w, h) && Enabled(w, e, h) && !Executing(e)
    ensures Inv(Next(w, e, h), h)
  {
    match e {
      case Start => StartKeeps(w, h);
      case Think => ThinkKeeps(w, h);
      case Save(ahead, ok) => SaveKeeps(w, ahead, ok, h);
      case Rollover(step, n) => RolloverKeeps(w, step, n, h);
      case Announce(ids, ok) => AnnounceKeeps(w, ids, ok, h);
      case Gate(batch) => GateKeeps(w, batch, h);
      case Crash => StopKeeps(w, h);
      case Resume(readable, through, ok, reread) => ResumeKeeps(w, readable, through, ok, reread, h);
    }
  }

  lemma {:induction false} NextKeeps(w: World, e: Event, h: Hash)
    requires Digests(h) && Inv(w, h) && Enabled(w, e, h)
    ensures Inv(Next(w, e, h), h)
  {
    if Executing(e) {
      ExecutionKeeps(w, e, h);
    } else {
      OtherStepKeeps(w, e, h);
    }
  }

  lemma {:induction false} RunKeeps(v: World, es: seq<Event>, w: World, h: Hash)
    requires Digests(h) && Inv(v, h) && Leads(v, es, w, h)
    ensures Inv(w, h)
    decreases |es|
  {
    if es != [] {
      NextKeeps(v, es[0], h);
      RunKeeps(Next(v, es[0], h), es[1..], w, h);
    }
  }
}
